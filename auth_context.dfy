/** The session held by `AuthProvider` (context/AuthContext.jsx): three state
    fields beside the browser's localStorage. */
module AuthContext {
  import opened JsValue
  import opened Json
  import opened JsonRoundTrip
  import opened WebStorage
  import opened AuthService
  import opened Guards

  /** The provider's state after an operation, with the store it leaves. */
  datatype Session = Session(user: Val, isAuthenticated: bool, items: map<string, string>)

  /** `isAuthenticated` is true exactly when there is a user. */
  predicate Consistent(s: Session) {
    s.isAuthenticated <==> s.user != Null
  }

  /** A key whose stored text is truthy, i.e. present and not empty. */
  predicate HasText(items: map<string, string>, k: string) {
    k in items && items[k] != ""
  }

  // ------------------------------------------------------------ checkAuth

  /** The outcome of `checkAuth` on a store: with a token and a stored user the
      parsed user is restored; a user text JSON.parse rejects clears the three
      keys; otherwise nobody is signed in and the store is left alone. */
  function Restore(items: map<string, string>): Session {
    if HasText(items, TOKEN) && HasText(items, USER) then
      match Parse(items[USER])
      case None => Session(Null, false, items - {TOKEN, REFRESH_TOKEN, USER})
      case Some(u) => Session(u, true, items)
    else Session(Null, false, items)
  }

  /** After `checkAuth`, `isAuthenticated` agrees with the presence of a user
      unless the stored user text is literally a JSON null. */
  lemma RestoreConsistent(items: map<string, string>)
    ensures Consistent(Restore(items)) <==>
      !(HasText(items, TOKEN) && HasText(items, USER) && Parse(items[USER]) == Some(Null))
  {
  }

  /** `checkAuth` changes the store only when the stored user cannot be parsed,
      and then removes exactly the token, the refresh token and the user. */
  lemma RestoreStoreEffect(items: map<string, string>)
    ensures Restore(items).items == items ||
      (Restore(items).items == items - {TOKEN, REFRESH_TOKEN, USER}
       && HasText(items, TOKEN) && HasText(items, USER) && Parse(items[USER]).None?)
    ensures !HasText(items, TOKEN) || !HasText(items, USER) ==> Restore(items) == Session(Null, false, items)
    ensures HasText(items, TOKEN) && HasText(items, USER) && Parse(items[USER]).None? ==>
      Restore(items) == Session(Null, false, items - {TOKEN, REFRESH_TOKEN, USER})
    ensures Restore(items).items != items <==>
      HasText(items, TOKEN) && HasText(items, USER) && Parse(items[USER]).None?
  {
    if HasText(items, TOKEN) && HasText(items, USER) && Parse(items[USER]).None? {
      assert TOKEN !in Restore(items).items;
    }
  }

  // ------------------------------------------------------------ login

  /** The record `login` keeps for the user in the response. */
  function UserData(u: Val): (r: Val)
    ensures r.Obj? && Keys(r.fields) == USER_DATA_KEYS
    ensures Get(r, "is_first_login") == Undefined
  {
    Obj([Field("id", Get(u, "id")), Field("username", Get(u, "username")),
         Field("email", Get(u, "email")), Field("is_superuser", Get(u, "is_superuser")),
         Field("is_staff", Get(u, "is_staff")), Field("role", Or(Get(u, "role"), Str("empleado")))])
  }

  /** The stored role is the response's role when truthy, "empleado" otherwise,
      so it is never falsy. */
  lemma UserDataRole(u: Val)
    ensures Get(UserData(u), "role") == Or(Get(u, "role"), Str("empleado"))
    ensures Truthy(Get(UserData(u), "role"))
  {
    var fs := UserData(u).fields;
    assert Lookup(fs, "role") == Lookup(fs[1..], "role");
    assert Lookup(fs[1..], "role") == Lookup(fs[2..], "role") by { assert fs[1..][1..] == fs[2..]; }
    assert Lookup(fs[2..], "role") == Lookup(fs[3..], "role") by { assert fs[2..][1..] == fs[3..]; }
    assert Lookup(fs[3..], "role") == Lookup(fs[4..], "role") by { assert fs[3..][1..] == fs[4..]; }
    assert Lookup(fs[4..], "role") == Lookup(fs[5..], "role") by { assert fs[4..][1..] == fs[5..]; }
  }

  /** The session and the completion `login` ends with, given how the server
      call ended. */
  function LoginSession(items: map<string, string>, reply: Completion): (Session, Completion) {
    if reply.Threw? then (Session(Null, false, items), reply)
    else if Nullish(reply.value) then (Session(Null, false, items), Threw(TypeErrorObj()))
    else
      var data := reply.value;
      var stored := LoginStore(items, data);
      if !Truthy(Get(data, "access")) then
        (Session(Null, false, stored), Threw(ErrorObj(Str("No se recibió el token de acceso"))))
      else if Nullish(Get(data, "user")) then
        (Session(Null, false, stored), Threw(TypeErrorObj()))
      else
        var userData := UserData(Get(data, "user"));
        (Session(userData, true, stored[USER := Stringify(userData)]), Returned(data))
  }

  /** `login` ends signed in exactly when it returns, and the session is
      consistent either way. */
  lemma LoginOutcome(items: map<string, string>, reply: Completion)
    ensures var (s, c) := LoginSession(items, reply);
      Consistent(s) && (s.isAuthenticated <==> c.Returned?)
    ensures var (s, c) := LoginSession(items, reply);
      c.Returned? ==>
        reply.Returned? && c == reply && Truthy(Get(reply.value, "access"))
        && !Nullish(Get(reply.value, "user")) && s.user == UserData(Get(reply.value, "user"))
  {
  }

  /** A value read from a well-formed object is well formed. */
  lemma {:induction false} WellFormedLookup(fs: seq<Field>, k: string)
    requires forall j :: 0 <= j < |fs| ==> WellFormed(fs[j].val)
    ensures WellFormed(Lookup(fs, k))
  {
    if fs != [] && fs[0].key != k {
      WellFormedLookup(fs[1..], k);
    }
  }

  lemma UserDataWellFormed(u: Val)
    requires WellFormed(u)
    ensures WellFormed(UserData(u))
  {
    var fs := UserData(u).fields;
    forall j | 0 <= j < |fs| ensures WellFormed(fs[j].val) {
      WellFormedGet(u, USER_DATA_KEYS[j]);
    }
    UserDataKeysDistinct();
    DistinctUnique(fs);
  }

  lemma WellFormedGet(u: Val, k: string)
    requires WellFormed(u)
    ensures WellFormed(Get(u, k))
  {
    if u.Obj? {
      WellFormedLookup(u.fields, k);
    }
  }

  const USER_DATA_KEYS := ["id", "username", "email", "is_superuser", "is_staff", "role"]

  lemma UserDataKeysDistinct()
    ensures DistinctKeys(USER_DATA_KEYS)
  {
  }

  /** `checkAuth` on a store whose user text parses to `v`. */
  lemma RestoreParsed(items: map<string, string>, v: Val)
    requires HasText(items, USER) && Parse(items[USER]) == Some(v)
    ensures Restore(items) == if HasText(items, TOKEN) then Session(v, true, items) else Session(Null, false, items)
  {
  }

  /** The text stored for a well-formed record parses back to its JSON copy. */
  lemma StoredUserParses(userData: Val)
    requires userData.Obj? && WellFormed(userData)
    ensures Stringify(userData) != "" && Parse(Stringify(userData)) == Some(Norm(userData))
  {
    StringifyParse(userData);
    EncFirst(Norm(userData));
  }

  /** After a successful login a page reload restores the JSON copy of the
      stored record, signed in, provided the access token's text is not empty;
      an empty token text (a truthy value such as `[]`) restores nobody. */
  lemma LoginThenReload(items: map<string, string>, reply: Completion)
    requires LoginSession(items, reply).1.Returned?
    requires WellFormed(reply.value)
    ensures var s := LoginSession(items, reply).0;
      var access := ToJsString(Get(reply.value, "access"));
      Restore(s.items) == if access != "" then Session(Norm(s.user), true, s.items)
                          else Session(Null, false, s.items)
  {
    var data := reply.value;
    var u := Get(data, "user");
    WellFormedLookup(data.fields, "user");
    UserDataWellFormed(u);
    var access := ToJsString(Get(data, "access"));
    var stored := items[TOKEN := access][REFRESH_TOKEN := ToJsString(Get(data, "refresh"))];
    assert LoginSession(items, reply).0 == Session(UserData(u), true, stored[USER := Stringify(UserData(u))]);
    ReloadStored(stored, UserData(u));
  }

  /** A reload of a store holding a token text and the text of a well-formed
      record restores that record's JSON copy exactly when the token text is
      not empty. */
  lemma ReloadStored(stored: map<string, string>, userData: Val)
    requires TOKEN in stored && userData.Obj? && WellFormed(userData)
    ensures var m := stored[USER := Stringify(userData)];
      Restore(m) == if stored[TOKEN] != "" then Session(Norm(userData), true, m)
                    else Session(Null, false, m)
  {
    var m := stored[USER := Stringify(userData)];
    StoredUserParses(userData);
    assert m[TOKEN] == stored[TOKEN];
    if stored[TOKEN] != "" {
      RestoreParsed(m, Norm(userData));
    }
  }

  /** A reload after a successful login leaves every guard decision as it was
      before the reload. */
  lemma ReloadKeepsGuardDecisions(items: map<string, string>, reply: Completion, loading: bool, pathname: string)
    requires LoginSession(items, reply).1.Returned?
    requires WellFormed(reply.value) && ToJsString(Get(reply.value, "access")) != ""
    ensures var s := LoginSession(items, reply).0; var r := Restore(s.items);
      ProtectedRoute(loading, r.isAuthenticated, r.user, pathname)
        == ProtectedRoute(loading, s.isAuthenticated, s.user, pathname)
      && PublicRoute(loading, r.isAuthenticated, r.user) == PublicRoute(loading, s.isAuthenticated, s.user)
  {
    var s := LoginSession(items, reply).0;
    LoginThenReload(items, reply);
    LoginUserWellFormed(items, reply);
    SameGuards(s, Restore(s.items), loading, pathname);
  }

  lemma LoginUserWellFormed(items: map<string, string>, reply: Completion)
    requires LoginSession(items, reply).1.Returned?
    requires WellFormed(reply.value)
    ensures var s := LoginSession(items, reply).0;
      s.isAuthenticated && s.user.Obj? && UniqueKeys(s.user.fields)
  {
    WellFormedLookup(reply.value.fields, "user");
    UserDataWellFormed(Get(reply.value, "user"));
  }

  lemma SameGuards(s: Session, r: Session, loading: bool, pathname: string)
    requires s.user.Obj? && UniqueKeys(s.user.fields)
    requires r.user == Norm(s.user) && r.isAuthenticated == s.isAuthenticated
    ensures ProtectedRoute(loading, r.isAuthenticated, r.user, pathname)
        == ProtectedRoute(loading, s.isAuthenticated, s.user, pathname)
    ensures PublicRoute(loading, r.isAuthenticated, r.user) == PublicRoute(loading, s.isAuthenticated, s.user)
  {
    GuardsSurviveReload(loading, s.isAuthenticated, s.user, pathname);
  }

  // ------------------------------------------------------------ logout

  /** The store after `logout`: both tokens and the user are gone. */
  function LogoutSession(items: map<string, string>): Session {
    Session(Null, false, LogoutStore(items) - {USER})
  }

  /** Logging out twice is logging out once, and a reload afterwards restores nobody. */
  lemma LogoutThenReload(items: map<string, string>)
    ensures LogoutSession(LogoutSession(items).items) == LogoutSession(items)
    ensures Restore(LogoutSession(items).items) == LogoutSession(items)
  {
  }

  // ------------------------------------------------------------ the provider

  class AuthProvider {
    var user: Val
    var isAuthenticated: bool
    var loading: bool
    const store: LocalStorage

    /** The state before the startup effect ran. */
    constructor (store: LocalStorage)
      ensures this.store == store
      ensures user == Null && !isAuthenticated && loading
    {
      this.store := store;
      user := Null;
      isAuthenticated := false;
      loading := true;
    }

    /** `{!loading && children}`: the application renders only once the
        session has been restored. */
    predicate RendersChildren()
      reads this
    {
      !loading
    }

    /** The startup effect `checkAuth`. */
    method CheckAuth()
      modifies this, store
      ensures Session(user, isAuthenticated, store.items) == Restore(old(store.items))
      ensures !loading && RendersChildren()
    {
      var token := store.GetItem(TOKEN);
      if Truthy(token) {
        var storedUser := store.GetItem(USER);
        if Truthy(storedUser) {
          match Parse(storedUser.s)
          case None =>
            store.RemoveItem(TOKEN);
            store.RemoveItem(REFRESH_TOKEN);
            store.RemoveItem(USER);
            user := Null;
            isAuthenticated := false;
          case Some(parsed) =>
            user := parsed;
            isAuthenticated := true;
        } else {
          user := Null;
          isAuthenticated := false;
        }
      } else {
        user := Null;
        isAuthenticated := false;
      }
      loading := false;
    }

    /** `login(credentials)`; `reply` is how the service call to the server ended. */
    method Login(reply: Completion) returns (c: Completion)
      modifies this, store
      ensures (Session(user, isAuthenticated, store.items), c) == LoginSession(old(store.items), reply)
      ensures loading == old(loading)
    {
      var response := AuthService.Login(store, reply);
      if response.Threw? {
        user := Null;
        isAuthenticated := false;
        return response;
      }
      var data := response.value;
      if Truthy(Get(data, "access")) {
        var u := Get(data, "user");
        if Nullish(u) {
          user := Null;
          isAuthenticated := false;
          return Threw(TypeErrorObj());
        }
        var userData := UserData(u);
        store.SetItem(USER, Str(Stringify(userData)));
        user := userData;
        isAuthenticated := true;
        return response;
      }
      user := Null;
      isAuthenticated := false;
      return Threw(ErrorObj(Str("No se recibió el token de acceso")));
    }

    /** `logout()`: the service's own logout cannot throw, so the state is
        always cleared. */
    method Logout()
      modifies this, store
      ensures Session(user, isAuthenticated, store.items) == LogoutSession(old(store.items))
      ensures loading == old(loading)
    {
      AuthService.Logout(store);
      store.RemoveItem(USER);
      user := Null;
      isAuthenticated := false;
    }
  }
}
