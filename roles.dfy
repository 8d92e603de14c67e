/** Role resolution and the path-prefix access policy of the client
    (config/roles.js). */
module Roles {
  import opened JsValue

  const ADMIN := "admin"
  const EMPLEADO := "empleado"
  const SUPERVISOR := "supervisor"
  const TECNICO := "tecnico"

  /** One of the four roles the policy names. */
  predicate IsKnownRole(r: string) {
    r == ADMIN || r == EMPLEADO || r == SUPERVISOR || r == TECNICO
  }

  /** `DEFAULT_ROUTES[role]`: the property key is String(role); any other key
      reads undefined. */
  function DefaultRoute(role: Val): (r: Val)
    ensures r.Undefined? <==> !IsKnownRole(ToJsString(role))
    ensures !r.Undefined? ==> r == Str("/" + ToJsString(role) + "/dashboard")
  {
    var k := ToJsString(role);
    if k == ADMIN then Str("/" + ADMIN + "/dashboard")
    else if k == EMPLEADO then Str("/" + EMPLEADO + "/dashboard")
    else if k == SUPERVISOR then Str("/" + SUPERVISOR + "/dashboard")
    else if k == TECNICO then Str("/" + TECNICO + "/dashboard")
    else Undefined
  }

  /** `getUserRole(user)` */
  function GetUserRole(user: Val): (r: Val)
    ensures r.Null? <==> !Truthy(user)
    ensures Truthy(user) ==> Truthy(r)
  {
    if !Truthy(user) then Null
    else if Truthy(Get(user, "is_staff")) then Str(ADMIN)
    else if Truthy(Get(user, "role")) then Get(user, "role")
    else Str(EMPLEADO)
  }

  /** `hasRole(user, role)` */
  predicate HasRole(user: Val, role: Val) {
    StrictEq(GetUserRole(user), role)
  }

  /** `hasAccessToRoute(user, route)`: the public paths, then a switch on the user's role. */
  predicate HasAccessToRoute(user: Val, route: string) {
    RoleAllows(GetUserRole(user), route)
  }

  /** The body of `hasAccessToRoute` once `userRole` is computed. */
  predicate RoleAllows(role: Val, route: string) {
    if route == "/" || route == "/login" then true
    else if StrictEq(role, Str(ADMIN)) then true
    else if StrictEq(role, Str(SUPERVISOR)) then "/supervisor/" <= route || "/empleado/" <= route
    else if StrictEq(role, Str(TECNICO)) then "/tecnico/" <= route
    else if StrictEq(role, Str(EMPLEADO)) then "/empleado/" <= route
    else false
  }

  // ------------------------------------------------------------ reference policy

  /** The path prefixes each role may open, written as a table. */
  function AllowedPrefixes(role: Val): seq<string> {
    if role == Str(ADMIN) then ["/"]
    else if role == Str(SUPERVISOR) then ["/supervisor/", "/empleado/"]
    else if role == Str(TECNICO) then ["/tecnico/"]
    else if role == Str(EMPLEADO) then ["/empleado/"]
    else []
  }

  predicate IsPublicPath(route: string) {
    route == "/" || route == "/login"
  }

  /** Some prefix in `ps` starts `route`. */
  predicate StartsWithAny(route: string, ps: seq<string>) {
    ps != [] && (ps[0] <= route || StartsWithAny(route, ps[1..]))
  }

  /** The access check agrees with the prefix table, for every user and path
      (admin's "/" covers every path the router produces, which all start with "/"). */
  lemma AccessMatchesPrefixTable(user: Val, route: string)
    requires route != [] && route[0] == '/'
    ensures HasAccessToRoute(user, route) <==>
      IsPublicPath(route) || StartsWithAny(route, AllowedPrefixes(GetUserRole(user)))
  {
    var ps := AllowedPrefixes(GetUserRole(user));
    if |ps| == 2 {
      assert ps[1..][1..] == [];
      assert StartsWithAny(route, ps[1..]) == (ps[1] <= route);
    } else if |ps| == 1 {
      assert ps[1..] == [];
    }
  }

  // ------------------------------------------------------------ role resolution

  /** A missing user has the role null. */
  lemma NoUserNoRole(user: Val)
    requires Nullish(user)
    ensures GetUserRole(user) == Null
  {
  }

  /** A staff user resolves to "admin", whatever its role property holds. */
  lemma StaffIsAdmin(user: Val, role: Val)
    requires user.Obj? && Truthy(Get(user, "is_staff"))
    ensures GetUserRole(Set(user, "role", role)) == Str(ADMIN)
  {
    GetSet(user, "role", role, "is_staff");
  }

  /** A non-staff user with a truthy role resolves to exactly that value, even
      one that is not among the four roles. */
  lemma RolePassesThrough(user: Val, role: Val)
    requires user.Obj? && !Truthy(Get(user, "is_staff")) && Truthy(role)
    ensures GetUserRole(Set(user, "role", role)) == role
  {
    GetSet(user, "role", role, "is_staff");
    GetSet(user, "role", role, "role");
  }

  /** A non-staff user with a falsy role resolves to "empleado". */
  lemma FalsyRoleIsEmpleado(user: Val, role: Val)
    requires user.Obj? && !Truthy(Get(user, "is_staff")) && !Truthy(role)
    ensures GetUserRole(Set(user, "role", role)) == Str(EMPLEADO)
  {
    GetSet(user, "role", role, "is_staff");
    GetSet(user, "role", role, "role");
  }

  /** A user holds the admin role exactly when it is staff or names "admin" itself. */
  lemma HasAdminRole(user: Val)
    ensures HasRole(user, Str(ADMIN)) <==>
      Truthy(user) && (Truthy(Get(user, "is_staff")) || Get(user, "role") == Str(ADMIN))
  {
  }

  /** A role outside the four, null aside, is held only by a user who is not
      staff and names it, truthy, in its own `role` field. */
  lemma HasOtherRole(user: Val, r: Val)
    requires !r.Null? && !(r.Str? && IsKnownRole(r.s))
    ensures HasRole(user, r) <==>
      Truthy(user) && !Truthy(Get(user, "is_staff")) && Truthy(r) && Get(user, "role") == r
  {
    if HasRole(user, r) {
      assert r != Str(ADMIN) && r != Str(EMPLEADO);
    }
  }

  // ------------------------------------------------------------ access policy

  /** "/" and "/login" are open to everybody, including no user at all. */
  lemma PublicPathsOpen(user: Val)
    ensures HasAccessToRoute(user, "/") && HasAccessToRoute(user, "/login")
  {
  }

  /** A user whose role is not one of the four, or no user, reaches the public
      paths and nothing else. */
  lemma UnknownRoleOnlyPublic(user: Val, route: string)
    requires !GetUserRole(user).Str? || !IsKnownRole(GetUserRole(user).s)
    ensures HasAccessToRoute(user, route) <==> IsPublicPath(route)
  {
  }

  /** Access grows with the role: what empleado opens, supervisor opens, and
      admin opens everything. */
  lemma AccessHierarchy(e: Val, s: Val, t: Val, a: Val, route: string)
    requires GetUserRole(e) == Str(EMPLEADO) && GetUserRole(s) == Str(SUPERVISOR)
    requires GetUserRole(t) == Str(TECNICO) && GetUserRole(a) == Str(ADMIN)
    ensures HasAccessToRoute(e, route) ==> HasAccessToRoute(s, route)
    ensures HasAccessToRoute(s, route) ==> HasAccessToRoute(a, route)
    ensures HasAccessToRoute(t, route) ==> HasAccessToRoute(a, route)
    ensures HasAccessToRoute(a, route)
  {
  }

  /** Each of the four roles may open its own default route, "/<role>/dashboard". */
  lemma DefaultRouteAccessible(user: Val)
    requires GetUserRole(user).Str? && IsKnownRole(GetUserRole(user).s)
    ensures DefaultRoute(GetUserRole(user)) == Str("/" + GetUserRole(user).s + "/dashboard")
    ensures HasAccessToRoute(user, DefaultRoute(GetUserRole(user)).s)
  {
    OwnDashboardAllowed(GetUserRole(user).s);
  }

  /** The prefix test of each role lets its own dashboard through. */
  lemma OwnDashboardAllowed(r: string)
    requires IsKnownRole(r)
    ensures RoleAllows(Str(r), "/" + r + "/dashboard")
  {
    var path := "/" + r + "/dashboard";
    assert path == ("/" + r + "/") + "dashboard";
    if r == SUPERVISOR {
      assert "/" + r + "/" == "/supervisor/";
    } else if r == TECNICO {
      assert "/" + r + "/" == "/tecnico/";
    } else if r == EMPLEADO {
      assert "/" + r + "/" == "/empleado/";
    }
  }
}
