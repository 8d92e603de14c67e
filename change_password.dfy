/** The first-login password change page (pages/auth/ChangePasswordPage.jsx):
    the strength rule, the submit handler and the redirect effect. */
module ChangePassword {
  import opened Decimal
  import opened JsValue
  import opened Json
  import opened JsonRoundTrip
  import opened WebStorage
  import opened Roles
  import opened Guards
  import opened AuthService
  import opened AuthContext

  const MISMATCH := "La nueva contraseña y la confirmación no coinciden."
  const WEAK := "La contraseña debe tener al menos 8 caracteres, una mayúscula, una minúscula y un número."
  const FAILED := "Error al cambiar la contraseña"
  const FAILED_DOT := "Error al cambiar la contraseña."

  // ------------------------------------------------------------ strength rule

  predicate IsLower(c: char) { 'a' <= c <= 'z' }
  predicate IsUpper(c: char) { 'A' <= c <= 'Z' }
  predicate IsAlnum(c: char) { IsLower(c) || IsUpper(c) || IsDigit(c) }

  /** What one left-to-right pass over a password finds: a lowercase letter,
      an uppercase letter, a digit, and whether every character is an ASCII
      letter or digit. */
  datatype Scan = Scan(lower: bool, upper: bool, digit: bool, alnum: bool)

  function ScanPassword(p: string): Scan {
    if p == [] then Scan(false, false, false, true)
    else
      var rest := ScanPassword(p[1..]);
      var c := p[0];
      Scan(IsLower(c) || rest.lower, IsUpper(c) || rest.upper, IsDigit(c) || rest.digit, IsAlnum(c) && rest.alnum)
  }

  /** `validatePassword(p)`: the pattern `^(?=.*[a-z])(?=.*[A-Z])(?=.*\d)[a-zA-Z\d]{8,}$`. */
  predicate ValidatePassword(p: string) {
    var s := ScanPassword(p);
    |p| >= 8 && s.alnum && s.lower && s.upper && s.digit
  }

  /** The rule stated on characters: at least eight, all ASCII letters or
      digits, with a lowercase letter, an uppercase letter and a digit among them. */
  predicate StrongPassword(p: string) {
    |p| >= 8
    && (forall i :: 0 <= i < |p| ==> IsAlnum(p[i]))
    && (exists i :: 0 <= i < |p| && IsLower(p[i]))
    && (exists i :: 0 <= i < |p| && IsUpper(p[i]))
    && (exists i :: 0 <= i < |p| && IsDigit(p[i]))
  }

  lemma {:induction false} ScanPasswordMeaning(p: string)
    ensures ScanPassword(p).alnum <==> forall i :: 0 <= i < |p| ==> IsAlnum(p[i])
    ensures ScanPassword(p).lower <==> exists i :: 0 <= i < |p| && IsLower(p[i])
    ensures ScanPassword(p).upper <==> exists i :: 0 <= i < |p| && IsUpper(p[i])
    ensures ScanPassword(p).digit <==> exists i :: 0 <= i < |p| && IsDigit(p[i])
  {
    if p != [] {
      var t := p[1..];
      ScanPasswordMeaning(t);
      assert forall i :: 1 <= i < |p| ==> p[i] == t[i - 1];
      if exists i :: 0 <= i < |p| && IsLower(p[i]) {
        var i :| 0 <= i < |p| && IsLower(p[i]);
        if i > 0 { assert IsLower(t[i - 1]); }
      }
      if exists i :: 0 <= i < |p| && IsUpper(p[i]) {
        var i :| 0 <= i < |p| && IsUpper(p[i]);
        if i > 0 { assert IsUpper(t[i - 1]); }
      }
      if exists i :: 0 <= i < |p| && IsDigit(p[i]) {
        var i :| 0 <= i < |p| && IsDigit(p[i]);
        if i > 0 { assert IsDigit(t[i - 1]); }
      }
      if ScanPassword(t).lower {
        var i :| 0 <= i < |t| && IsLower(t[i]);
        assert IsLower(p[i + 1]);
      }
      if ScanPassword(t).upper {
        var i :| 0 <= i < |t| && IsUpper(t[i]);
        assert IsUpper(p[i + 1]);
      }
      if ScanPassword(t).digit {
        var i :| 0 <= i < |t| && IsDigit(t[i]);
        assert IsDigit(p[i + 1]);
      }
    }
  }

  /** The pattern accepts exactly the strong passwords. */
  lemma ValidatePasswordIff(p: string)
    ensures ValidatePassword(p) <==> StrongPassword(p)
  {
    ScanPasswordMeaning(p);
  }

  // ------------------------------------------------------------ redirect effect

  /** The `useEffect` navigation: to "/login" without a session, to the role's
      home (or "/") once `is_first_login` is falsy, nowhere otherwise. The
      navigation always replaces the current entry. */
  function RedirectEffect(isAuthenticated: bool, user: Val): (r: Option<Val>)
    ensures !isAuthenticated || !Truthy(user) ==> r == Some(Str("/login"))
    ensures r.None? <==> isAuthenticated && Truthy(user) && Truthy(Get(user, "is_first_login"))
    ensures r.Some? && r.value != Str("/login") ==> Truthy(r.value)
    ensures isAuthenticated && Truthy(user) && !Truthy(Get(user, "is_first_login")) ==>
      r == Some(Or(DefaultRoute(GetUserRole(user)), Str("/")))
  {
    if !isAuthenticated || !Truthy(user) then Some(Str("/login"))
    else if !Truthy(Get(user, "is_first_login")) then Some(Or(DefaultRoute(GetUserRole(user)), Str("/")))
    else None
  }

  /** A user past the first login is sent to "/<role>/dashboard" for the four
      known roles and to "/" for any other; a user whose role is a string may
      always open the page it is sent to. */
  lemma RedirectTarget(user: Val)
    requires Truthy(user) && !Truthy(Get(user, "is_first_login"))
    ensures var k := ToJsString(GetUserRole(user));
      RedirectEffect(true, user) == Some(Str(if IsKnownRole(k) then "/" + k + "/dashboard" else "/"))
    ensures GetUserRole(user).Str? ==> HasAccessToRoute(user, RedirectEffect(true, user).value.s)
  {
    var role := GetUserRole(user);
    if role.Str? && IsKnownRole(role.s) {
      DefaultRouteAccessible(user);
    }
  }

  /** The page renders its form only for a signed-in user whose `is_first_login` is truthy. */
  predicate FormRenders(isAuthenticated: bool, user: Val) {
    isAuthenticated && Truthy(user) && Truthy(Get(user, "is_first_login"))
  }

  /** The form shows exactly when the effect does not navigate away. */
  lemma FormIffNoRedirect(isAuthenticated: bool, user: Val)
    ensures FormRenders(isAuthenticated, user) <==> RedirectEffect(isAuthenticated, user).None?
  {
  }

  /** The record `login` stores has no `is_first_login`, so a freshly signed-in
      user never sees the form and is sent to their home page instead. */
  lemma LoginRecordSkipsForm(u: Val)
    ensures !FormRenders(true, UserData(u))
    ensures RedirectEffect(true, UserData(u)) == Some(Or(DefaultRoute(GetUserRole(UserData(u))), Str("/")))
  {
  }

  // ------------------------------------------------------------ submit

  /** What one submit leaves behind: the error shown, whether the service was
      called, the store, where the page navigated, and the exception that
      escaped the handler, if any. */
  datatype SubmitResult = SubmitResult(
    error: Val, called: bool, items: map<string, string>, navigateTo: Option<Val>, escaped: Option<Val>)

  /** The `catch` block for a thrown value `e`. Reading `errors` of null or
      undefined throws from inside the handler. */
  function CatchMessage(e: Val): (r: Result)
    ensures r.escaped.Some? <==> Nullish(e)
    ensures Nullish(e) ==> r.message == Str("") && r.escaped == Some(TypeErrorObj())
    ensures !Nullish(e) && Truthy(Get(e, "errors")) ==>
      r.message == Str(JoinElems(Flat(Values(Get(e, "errors"))), ", "))
    ensures !Nullish(e) && !Truthy(Get(e, "errors")) ==>
      Truthy(r.message) && (Truthy(Get(e, "message")) ==> r.message == Get(e, "message"))
      && (!Truthy(Get(e, "message")) ==> r.message == Str(FAILED_DOT))
  {
    if Nullish(e) then Result(Str(""), Some(TypeErrorObj()))
    else if Truthy(Get(e, "errors")) then Result(Str(JoinElems(Flat(Values(Get(e, "errors"))), ", ")), None)
    else Result(Or(Get(e, "message"), Str(FAILED_DOT)), None)
  }

  /** Each validation message the server lists under `errors`, alone or in
      an array, is among the entries joined into the error shown, and only those. */
  lemma ErrorsShown(e: Val, x: Val)
    requires !Nullish(e) && Truthy(Get(e, "errors"))
    ensures CatchMessage(e).message == Str(JoinElems(Flat(Values(Get(e, "errors"))), ", "))
    ensures x in Flat(Values(Get(e, "errors"))) <==>
      exists i :: 0 <= i < |Values(Get(e, "errors"))| &&
        (if Values(Get(e, "errors"))[i].Arr? then x in Values(Get(e, "errors"))[i].items else x == Values(Get(e, "errors"))[i])
  {
    var vs := Values(Get(e, "errors"));
    if x in Flat(vs) {
      FlatOrigin(vs, x);
    }
    if exists i :: 0 <= i < |vs| && (if vs[i].Arr? then x in vs[i].items else x == vs[i]) {
      var i :| 0 <= i < |vs| && (if vs[i].Arr? then x in vs[i].items else x == vs[i]);
      FlatKeeps(vs, i, x);
    }
  }

  /** A validation reply: a field with two messages and a field with one. */
  const SAMPLE_ERRORS: Val :=
    Obj([Field("new_password", Arr([Str("short"), Str("common")])), Field("detail", Str("invalid"))])

  /** The sample's three messages are shown joined, in order. */
  lemma ErrorsJoinedExample()
    ensures CatchMessage(Obj([Field("errors", SAMPLE_ERRORS)])).message == Str("short, common, invalid")
  {
    assert Get(Obj([Field("errors", SAMPLE_ERRORS)]), "errors") == SAMPLE_ERRORS;
    SampleFlat();
    SampleJoined();
  }

  lemma SampleFlat()
    ensures Flat(Values(SAMPLE_ERRORS)) == [Str("short"), Str("common"), Str("invalid")]
  {
    var vs := [Arr([Str("short"), Str("common")]), Str("invalid")];
    assert Values(SAMPLE_ERRORS) == vs;
    assert vs[1..] == [Str("invalid")] && vs[1..][1..] == [];
    assert Flat(vs[1..]) == [Str("invalid")];
  }

  lemma SampleJoined()
    ensures JoinElems([Str("short"), Str("common"), Str("invalid")], ", ") == "short, common, invalid"
  {
    JoinThree("short", "common", "invalid");
    assert "short" + ", " + "common" + ", " + "invalid" == "short, common, invalid";
  }

  lemma JoinThree(a: string, b: string, c: string)
    ensures JoinElems([Str(a), Str(b), Str(c)], ", ") == a + ", " + b + ", " + c
  {
    var xs := [Str(a), Str(b), Str(c)];
    assert xs[1..] == [Str(b), Str(c)] && xs[1..][1..] == [Str(c)];
    assert JoinElems([Str(c)], ", ") == c;
    assert JoinElems([Str(b), Str(c)], ", ") == b + ", " + c;
    assert JoinElems(xs, ", ") == a + ", " + (b + ", " + c);
  }

  datatype Result = Result(message: Val, escaped: Option<Val>)

  /** The record written back after a successful change. */
  function UpdatedUser(user: Val): Val {
    Set(user, "is_first_login", Bool(false))
  }

  /** `handleSubmit`, given the form fields, the context's user, the store and
      how `changeFirstLoginPassword` ended. */
  function Submit(newPassword: string, confirm: string, user: Val, items: map<string, string>, reply: Completion): SubmitResult {
    if newPassword != confirm then SubmitResult(Str(MISMATCH), false, items, None, None)
    else if !ValidatePassword(newPassword) then SubmitResult(Str(WEAK), false, items, None, None)
    else Answer(user, items, reply)
  }

  /** What the page does with the password service's reply once it was called. */
  function Answer(user: Val, items: map<string, string>, reply: Completion): SubmitResult {
    if reply.Returned? && !Nullish(reply.value) then
      var response := reply.value;
      if Get(response, "status") == Str("success") then
        var updated := UpdatedUser(user);
        SubmitResult(Str(""), true, (items - {USER})[USER := Stringify(updated)],
                     Some(Or(DefaultRoute(GetUserRole(updated)), Str("/"))), None)
      else SubmitResult(Or(Get(response, "message"), Str(FAILED)), true, items, None, None)
    else
      var e := if reply.Threw? then reply.error else TypeErrorObj();
      var c := CatchMessage(e);
      SubmitResult(c.message, true, items, None, c.escaped)
  }

  /** Validation order: a mismatch is reported first, then a weak password, and
      the service is called exactly when both checks pass; nothing is stored
      or navigated unless it was called. */
  lemma SubmitValidationOrder(newPassword: string, confirm: string, user: Val, items: map<string, string>, reply: Completion)
    ensures var r := Submit(newPassword, confirm, user, items, reply);
      (newPassword != confirm ==> r.error == Str(MISMATCH))
      && (newPassword == confirm && !StrongPassword(newPassword) ==> r.error == Str(WEAK))
      && (r.called <==> newPassword == confirm && StrongPassword(newPassword))
      && (!r.called ==> r.items == items && r.navigateTo == None && r.escaped == None)
  {
    ValidatePasswordIff(newPassword);
  }

  /** Only the stored user changes on success, the record differs from the old
      one only in `is_first_login`, now false, and the page navigates to the
      role's home or "/". */
  lemma SubmitSuccessRecord(newPassword: string, confirm: string, user: Val, items: map<string, string>, reply: Completion, k: string)
    requires reply.Returned? && Get(reply.value, "status") == Str("success")
    requires newPassword == confirm && StrongPassword(newPassword)
    ensures var r := Submit(newPassword, confirm, user, items, reply);
      r.error == Str("") && USER in r.items && r.items[USER] == Stringify(UpdatedUser(user))
      && (k != USER ==> (k in r.items <==> k in items) && (k in items ==> r.items[k] == items[k]))
      && Get(UpdatedUser(user), "is_first_login") == Bool(false)
      && (k != "is_first_login" ==> Get(UpdatedUser(user), k) == Get(user, k))
      && r.navigateTo == Some(Or(DefaultRoute(GetUserRole(UpdatedUser(user))), Str("/")))
  {
    SubmitSuccess(newPassword, user, items, reply);
    var r := Submit(newPassword, confirm, user, items, reply);
    assert r.error == Str("") by {
      ValidatePasswordIff(newPassword);
    }
    GetSet(user, "is_first_login", Bool(false), k);
    GetSet(user, "is_first_login", Bool(false), "is_first_login");
  }

  /** After a successful change a reload restores a record with
      `is_first_login` false, for which the effect sends the user exactly where
      the handler did and the form no longer shows. */
  lemma SuccessThenReload(newPassword: string, user: Val, items: map<string, string>, reply: Completion)
    requires reply.Returned? && Get(reply.value, "status") == Str("success")
    requires StrongPassword(newPassword)
    requires user.Obj? && WellFormed(user) && HasText(items, TOKEN)
    ensures var r := Submit(newPassword, newPassword, user, items, reply);
      var s := Restore(r.items);
      s.isAuthenticated && s.user == Norm(UpdatedUser(user))
      && !FormRenders(s.isAuthenticated, s.user)
      && RedirectEffect(s.isAuthenticated, s.user) == r.navigateTo
  {
    var updated := UpdatedUser(user);
    var r := Submit(newPassword, newPassword, user, items, reply);
    SubmitSuccess(newPassword, user, items, reply);
    UpdatedWellFormed(user);
    ReloadStored(items - {USER}, updated);
    EffectAfterReload(user);
  }

  /** A valid submit the server does not accept leaves the store alone and
      stays on the page: a reply without success shows its `message` or the
      fallback, a thrown value with `errors` shows those joined, any other its
      `message` or the dotted fallback; only a thrown null or undefined
      escapes the handler. */
  lemma SubmitFailure(newPassword: string, user: Val, items: map<string, string>, reply: Completion)
    requires StrongPassword(newPassword)
    requires !(reply.Returned? && Get(reply.value, "status") == Str("success"))
    ensures var r := Submit(newPassword, newPassword, user, items, reply);
      r.called && r.items == items && r.navigateTo == None
      && (r.escaped.Some? <==> reply.Threw? && Nullish(reply.error))
      && (reply.Returned? && !Nullish(reply.value) ==> r.error == Or(Get(reply.value, "message"), Str(FAILED)))
      && (reply.Threw? && !Nullish(reply.error) && Truthy(Get(reply.error, "errors")) ==>
            r.error == Str(JoinElems(Flat(Values(Get(reply.error, "errors"))), ", ")))
      && (reply.Threw? && !Nullish(reply.error) && !Truthy(Get(reply.error, "errors")) ==>
            r.error == Or(Get(reply.error, "message"), Str(FAILED_DOT)))
      && (reply.Returned? && Nullish(reply.value) ==> r.error == Or(Get(TypeErrorObj(), "message"), Str(FAILED_DOT)))
  {
    ValidatePasswordIff(newPassword);
  }

  lemma SubmitSuccess(newPassword: string, user: Val, items: map<string, string>, reply: Completion)
    requires reply.Returned? && Get(reply.value, "status") == Str("success")
    requires StrongPassword(newPassword)
    ensures var r := Submit(newPassword, newPassword, user, items, reply);
      r.items == (items - {USER})[USER := Stringify(UpdatedUser(user))]
      && r.navigateTo == Some(Or(DefaultRoute(GetUserRole(UpdatedUser(user))), Str("/")))
  {
    ValidatePasswordIff(newPassword);
  }

  /** The JSON copy of the updated record has `is_first_login` false and the
      role of the updated record. */
  lemma EffectAfterReload(user: Val)
    requires user.Obj? && UniqueKeys(user.fields)
    ensures !FormRenders(true, Norm(UpdatedUser(user)))
    ensures RedirectEffect(true, Norm(UpdatedUser(user)))
         == Some(Or(DefaultRoute(GetUserRole(UpdatedUser(user))), Str("/")))
  {
    var updated := UpdatedUser(user);
    PutKeepsUnique(user.fields, "is_first_login", Bool(false));
    GetSet(user, "is_first_login", Bool(false), "is_first_login");
    LookupNormFields(updated.fields, "is_first_login");
    RoleOfNorm(updated);
    ToJsStringNorm(GetUserRole(updated));
  }

  lemma UpdatedWellFormed(user: Val)
    requires user.Obj? && WellFormed(user)
    ensures WellFormed(UpdatedUser(user))
  {
    PutKeepsUnique(user.fields, "is_first_login", Bool(false));
    PutWellFormed(user.fields, "is_first_login", Bool(false));
  }

  lemma {:induction false} PutWellFormed(fs: seq<Field>, k: string, x: Val)
    requires forall j :: 0 <= j < |fs| ==> WellFormed(fs[j].val)
    requires WellFormed(x)
    ensures forall j :: 0 <= j < |Put(fs, k, x)| ==> WellFormed(Put(fs, k, x)[j].val)
  {
    if fs != [] && fs[0].key != k {
      PutWellFormed(fs[1..], k, x);
      assert Put(fs, k, x) == [fs[0]] + Put(fs[1..], k, x);
    }
  }

  // ------------------------------------------------------------ the page

  class ChangePasswordPage {
    var newPassword: string
    var confirmNewPassword: string
    var error: Val
    var loading: bool
    const store: LocalStorage

    constructor (store: LocalStorage)
      ensures this.store == store
      ensures newPassword == "" && confirmNewPassword == "" && error == Str("") && !loading
    {
      this.store := store;
      newPassword := "";
      confirmNewPassword := "";
      error := Str("");
      loading := false;
    }

    /** `handleSubmit` for the context's `user`; `reply` is how the password
        service call ended, used only when the call is made. The submit button
        is disabled while loading, so a submit starts with `loading` false. */
    method HandleSubmit(user: Val, reply: Completion) returns (called: bool, navigateTo: Option<Val>, escaped: Option<Val>)
      requires !loading
      modifies this, store
      ensures Submit(newPassword, confirmNewPassword, user, old(store.items), reply)
           == SubmitResult(error, called, store.items, navigateTo, escaped)
      ensures !loading
      ensures newPassword == old(newPassword) && confirmNewPassword == old(confirmNewPassword)
    {
      error := Str("");
      called, navigateTo, escaped := false, None, None;
      if newPassword != confirmNewPassword {
        error := Str(MISMATCH);
        return;
      }
      if !ValidatePassword(newPassword) {
        error := Str(WEAK);
        return;
      }
      loading := true;
      called := true;
      navigateTo, escaped := ApplyAnswer(user, reply);
      loading := false;
    }

    /** The `try`/`catch` part of `handleSubmit`, after the service was called. */
    method ApplyAnswer(user: Val, reply: Completion) returns (navigateTo: Option<Val>, escaped: Option<Val>)
      modifies this, store
      ensures Answer(user, old(store.items), reply) == SubmitResult(error, true, store.items, navigateTo, escaped)
      ensures unchanged(this`newPassword, this`confirmNewPassword, this`loading)
    {
      navigateTo, escaped := None, None;
      if reply.Returned? && !Nullish(reply.value) {
        var response := reply.value;
        if Get(response, "status") == Str("success") {
          var updated := UpdatedUser(user);
          store.RemoveItem(USER);
          store.SetItem(USER, Str(Stringify(updated)));
          error := Str("");
          navigateTo := Some(Or(DefaultRoute(GetUserRole(updated)), Str("/")));
        } else {
          error := Or(Get(response, "message"), Str(FAILED));
        }
      } else {
        var e := if reply.Threw? then reply.error else TypeErrorObj();
        var c := CatchMessage(e);
        error := c.message;
        escaped := c.escaped;
      }
    }
  }
}
