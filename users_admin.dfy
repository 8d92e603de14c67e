/** The data logic of pages/admin/GestionUsuarios.jsx: role labels, the
    profile normalisation done on selection and on entering edit mode, the
    two form-input handlers, the create payload, and the list updates after
    a save or a delete. Service calls are inputs: how the awaited call ended. */
module UsersAdmin {
  import opened JsValue
  import opened Json
  import opened Roles

  // ------------------------------------------------------------ role labels

  /** The `roleDisplayNames` table, read with a property key. */
  function RoleLabel(key: string): Val {
    if key == ADMIN then Str("Administrador")
    else if key == SUPERVISOR then Str("Supervisor")
    else if key == TECNICO then Str("Técnico")
    else if key == EMPLEADO then Str("Empleado")
    else Undefined
  }

  /** `getRoleDisplayName(role)`: the Spanish label of a known role, any other
      truthy value as it is, "No especificado" for a falsy one. */
  function RoleDisplayName(role: Val): (r: Val)
    ensures IsKnownRole(ToJsString(role)) ==> r == RoleLabel(ToJsString(role)) && r.Str? && r.s != ""
    ensures !IsKnownRole(ToJsString(role)) && Truthy(role) ==> r == role
    ensures !Truthy(role) ==> r == Str("No especificado")
  {
    Or(Or(RoleLabel(ToJsString(role)), role), Str("No especificado"))
  }

  // ------------------------------------------------------------ profile normalisation

  /** The profile properties the screen normalises, in order. */
  const PROFILE_KEYS: seq<string> := ["first_name", "last_name", "role", "department", "phone"]

  /** One normalised profile property: `user.profile.k || user.k || ''` when
      the profile is truthy, `user.k || ''` otherwise. */
  function ProfileValue(user: Val, k: string): Val {
    var profile := Get(user, "profile");
    if Truthy(profile) then Or(Or(Get(profile, k), Get(user, k)), Str(""))
    else Or(Get(user, k), Str(""))
  }

  /** The normalised profile's properties, in PROFILE_KEYS order. */
  function NormalizedFields(user: Val): (fs: seq<Field>)
    ensures Keys(fs) == PROFILE_KEYS
  {
    seq(|PROFILE_KEYS|, i requires 0 <= i < |PROFILE_KEYS| => Field(PROFILE_KEYS[i], ProfileValue(user, PROFILE_KEYS[i])))
  }

  /** `handleSelectUser`: the user with its profile replaced by the normalised one. */
  function SelectNormalize(user: Val): Val {
    Set(user, "profile", Obj(NormalizedFields(user)))
  }

  /** The profile built by `handleEditUser`: the normalised properties, then
      the properties of the original profile spread over them. */
  function EditProfile(sel: Val): Val {
    var profile := Get(sel, "profile");
    if Truthy(profile) then Obj(Merge(NormalizedFields(sel), Spread(profile)))
    else Obj(NormalizedFields(sel))
  }

  /** `handleEditUser`: the form data prepared from the selected user. */
  function EditNormalize(sel: Val): Val {
    Set(sel, "profile", EditProfile(sel))
  }

  lemma LookupNormalized(user: Val, i: nat)
    requires i < |PROFILE_KEYS|
    ensures Lookup(NormalizedFields(user), PROFILE_KEYS[i]) == ProfileValue(user, PROFILE_KEYS[i])
  {
    var fs := NormalizedFields(user);
    assert Keys(fs[..i]) == PROFILE_KEYS[..i];
    LookupAt(fs, i);
  }

  /** After selection each normalised property is the profile's own value when
      truthy, else the top-level value when truthy, else ''; the other
      properties of the profile are dropped and every top-level property other
      than `profile` is kept. */
  lemma SelectNormalizeMeaning(user: Val, k: string)
    ensures k != "profile" ==> Get(SelectNormalize(user), k) == Get(user, k)
    ensures var p := Get(SelectNormalize(user), "profile");
      && p.Obj? && Keys(p.fields) == PROFILE_KEYS
      && (k !in PROFILE_KEYS ==> Get(p, k) == Undefined)
      && (k in PROFILE_KEYS && Truthy(Get(Get(user, "profile"), k)) ==> Get(p, k) == Get(Get(user, "profile"), k))
      && (k in PROFILE_KEYS && !Truthy(Get(Get(user, "profile"), k)) && Truthy(Get(user, k)) ==> Get(p, k) == Get(user, k))
      && (k in PROFILE_KEYS && !Truthy(Get(Get(user, "profile"), k)) && !Truthy(Get(user, k)) ==> Get(p, k) == Str(""))
  {
    var fs := NormalizedFields(user);
    GetSet(user, "profile", Obj(fs), k);
    GetSet(user, "profile", Obj(fs), "profile");
    if k in PROFILE_KEYS {
      var i :| 0 <= i < |PROFILE_KEYS| && PROFILE_KEYS[i] == k;
      LookupNormalized(user, i);
    }
  }

  /** In edit mode a property present in the original profile keeps the
      profile's value, even a falsy one; the others are normalised as on
      selection. */
  lemma EditProfileOverrides(sel: Val, k: string)
    requires UniqueKeys(Spread(Get(sel, "profile")))
    ensures var own := Spread(Get(sel, "profile"));
      && (k in Keys(own) ==> Get(EditProfile(sel), k) == Lookup(own, k))
      && (k !in Keys(own) && k in PROFILE_KEYS ==> Get(EditProfile(sel), k) == ProfileValue(sel, k))
      && (k !in Keys(own) && k !in PROFILE_KEYS ==> Get(EditProfile(sel), k) == Undefined)
  {
    var own := Spread(Get(sel, "profile"));
    var fs := NormalizedFields(sel);
    if Truthy(Get(sel, "profile")) {
      LookupMerge(fs, own, k);
    }
    if k in PROFILE_KEYS {
      var i :| 0 <= i < |PROFILE_KEYS| && PROFILE_KEYS[i] == k;
      LookupNormalized(sel, i);
    }
  }

  /** Entering edit mode right after selecting a user gives the selected
      record back unchanged: the normalisation is a fixed point. */
  lemma SelectThenEdit(user: Val)
    ensures EditNormalize(SelectNormalize(user)) == SelectNormalize(user)
  {
    var p := Obj(NormalizedFields(user));
    SelectedProfile(user);
    PutTwice(Spread(user), "profile", p);
  }

  /** The profile `handleEditUser` builds from a freshly selected user is the
      selected profile itself. */
  lemma SelectedProfile(user: Val)
    ensures EditProfile(SelectNormalize(user)) == Obj(NormalizedFields(user))
  {
    var fs := NormalizedFields(user);
    var p := Obj(fs);
    var sel := SelectNormalize(user);
    GetSet(user, "profile", p, "profile");
    assert Get(sel, "profile") == p;
    NormalizeAgain(user);
    forall i | 0 <= i < |fs|
      ensures fs[i].key in Keys(fs) && Lookup(fs, fs[i].key) == fs[i].val
    {
      assert Keys(fs)[i] == fs[i].key;
      LookupNormalized(user, i);
    }
    MergeExisting(fs, fs);
  }

  /** Normalising a normalised user changes no property. */
  lemma NormalizeAgain(user: Val)
    ensures NormalizedFields(SelectNormalize(user)) == NormalizedFields(user)
  {
    var sel := SelectNormalize(user);
    forall i | 0 <= i < |PROFILE_KEYS|
      ensures ProfileValue(sel, PROFILE_KEYS[i]) == ProfileValue(user, PROFILE_KEYS[i])
    {
      NormalizeValueAgain(user, i);
    }
    SameValuesSameFields(sel, user);
  }

  lemma SameValuesSameFields(a: Val, b: Val)
    requires forall i :: 0 <= i < |PROFILE_KEYS| ==> ProfileValue(a, PROFILE_KEYS[i]) == ProfileValue(b, PROFILE_KEYS[i])
    ensures NormalizedFields(a) == NormalizedFields(b)
  {
    assert |NormalizedFields(a)| == |NormalizedFields(b)|;
  }

  lemma NormalizeValueAgain(user: Val, i: nat)
    requires i < |PROFILE_KEYS|
    ensures ProfileValue(SelectNormalize(user), PROFILE_KEYS[i]) == ProfileValue(user, PROFILE_KEYS[i])
  {
    var k := PROFILE_KEYS[i];
    var p := Obj(NormalizedFields(user));
    assert k in PROFILE_KEYS;
    assert "profile" !in PROFILE_KEYS;
    GetSet(user, "profile", p, "profile");
    GetSet(user, "profile", p, k);
    LookupNormalized(user, i);
    ProfileValueFalsy(user, k);
  }

  /** A normalised property is truthy, or it is '' and the top-level property is falsy. */
  lemma ProfileValueFalsy(user: Val, k: string)
    ensures Truthy(ProfileValue(user, k)) || (ProfileValue(user, k) == Str("") && !Truthy(Get(user, k)))
  {
  }

  // ------------------------------------------------------------ form inputs

  /** `handleEditInputChange`: `{...editFormData, [name]: value}`. */
  function EditInput(form: Val, name: string, value: Val): Val {
    Set(form, name, value)
  }

  /** An edit-form input writes its own key at the top level only: the nested
      profile is untouched unless the input is named `profile`. */
  lemma EditInputTopLevelOnly(form: Val, name: string, value: Val, k: string)
    ensures Get(EditInput(form, name, value), name) == value
    ensures k != name ==> Get(EditInput(form, name, value), k) == Get(form, k)
    ensures name != "profile" ==> Get(EditInput(form, name, value), "profile") == Get(form, "profile")
  {
    GetSet(form, name, value, name);
    GetSet(form, name, value, k);
    GetSet(form, name, value, "profile");
  }

  const TOP_INPUTS: seq<string> := ["username", "email", "password"]
  const PROFILE_INPUTS: seq<string> := ["first_name", "last_name", "role", "department"]

  /** `handleCreateInputChange`: account fields at the top level, four profile
      fields inside `profile`, every other name ignored. */
  function CreateInput(form: Val, name: string, value: Val): (r: Val)
    ensures name !in TOP_INPUTS && name !in PROFILE_INPUTS ==> r == form
  {
    if name in TOP_INPUTS then Set(form, name, value)
    else if name in PROFILE_INPUTS then Set(form, "profile", Set(Get(form, "profile"), name, value))
    else form
  }

  /** An account input lands at the top level, and nothing else moves. */
  lemma CreateInputTop(form: Val, name: string, value: Val, k: string)
    requires name in TOP_INPUTS
    ensures var r := CreateInput(form, name, value);
      && Get(r, name) == value
      && Get(r, "profile") == Get(form, "profile")
      && (k != name ==> Get(r, k) == Get(form, k))
  {
    assert name != "profile";
    GetSet(form, name, value, name);
    GetSet(form, name, value, k);
    GetSet(form, name, value, "profile");
  }

  /** A profile input lands inside `profile`, and nothing else moves. */
  lemma CreateInputProfile(form: Val, name: string, value: Val, k: string)
    requires name in PROFILE_INPUTS
    ensures var r := CreateInput(form, name, value);
      && Get(Get(r, "profile"), name) == value
      && (k != name ==> Get(Get(r, "profile"), k) == Get(Get(form, "profile"), k))
      && (k != "profile" ==> Get(r, k) == Get(form, k))
  {
    assert name !in TOP_INPUTS;
    var p := Get(form, "profile");
    GetSet(form, "profile", Set(p, name, value), "profile");
    GetSet(form, "profile", Set(p, name, value), k);
    GetSet(p, name, value, name);
    GetSet(p, name, value, k);
  }

  function BlankProfile(withPhone: bool): Val {
    var keys := if withPhone then PROFILE_KEYS else NAME_ROLE_KEYS;
    Record(keys, seq(|keys|, _ => Str("")))
  }

  /** The profile properties of a blank profile without `phone`. */
  const NAME_ROLE_KEYS := ["first_name", "last_name", "role", "department"]

  /** The top-level properties of the create form, in order. */
  const CREATE_FORM_KEYS := ["username", "email", "password", "profile"]

  /** The create form the screen starts with (its profile has `phone`). */
  const INITIAL_CREATE_FORM: Val :=
    Record(CREATE_FORM_KEYS, [Str(""), Str(""), Str(""), BlankProfile(true)])

  /** The create form every reset writes (its profile has no `phone`). */
  const RESET_CREATE_FORM: Val :=
    Record(CREATE_FORM_KEYS, [Str(""), Str(""), Str(""), BlankProfile(false)])

  /** `dataToSend` in `handleSaveNewUser`; reading the fields of a missing
      profile throws (None). */
  function CreatePayload(form: Val): (r: Option<Val>)
    ensures r.Some? <==> !Nullish(Get(form, "profile"))
  {
    var p := Get(form, "profile");
    if Nullish(p) then None
    else Some(Record(PAYLOAD_KEYS, [
      Get(form, "username"), Get(form, "email"), Get(form, "password"),
      Get(p, "first_name"), Get(p, "last_name"), PayloadProfileOf(p)]))
  }

  /** The nested `profile` of the payload. */
  function PayloadProfileOf(p: Val): Val {
    Record(PAYLOAD_PROFILE_KEYS, [Get(p, "role"), Get(p, "department"), Get(p, "phone")])
  }

  /** The payload lifts the names out of the profile to the top level ... */
  lemma PayloadTop(form: Val)
    requires !Nullish(Get(form, "profile"))
    ensures var d := CreatePayload(form).value; var p := Get(form, "profile");
      && Get(d, "username") == Get(form, "username")
      && Get(d, "first_name") == Get(p, "first_name")
      && Get(d, "last_name") == Get(p, "last_name")
  {
    var fs := CreatePayload(form).value.fields;
    PayloadKeysDistinct(form);
    LookupDistinct(fs, 0);
    LookupDistinct(fs, 3);
    LookupDistinct(fs, 4);
  }

  /** ... and nests role, department and phone, and only those, under `profile`. */
  lemma PayloadProfile(form: Val)
    requires !Nullish(Get(form, "profile"))
    ensures var d := CreatePayload(form).value; var p := Get(form, "profile");
      && Get(Get(d, "profile"), "role") == Get(p, "role")
      && Get(Get(d, "profile"), "department") == Get(p, "department")
      && Get(Get(d, "profile"), "phone") == Get(p, "phone")
      && Get(Get(d, "profile"), "first_name") == Undefined
      && Get(Get(d, "profile"), "last_name") == Undefined
  {
    var p := Get(form, "profile");
    var fs := CreatePayload(form).value.fields;
    PayloadKeysDistinct(form);
    LookupDistinct(fs, 5);
    PayloadProfileFields(p);
  }

  const PAYLOAD_KEYS := ["username", "email", "password", "first_name", "last_name", "profile"]
  const PAYLOAD_PROFILE_KEYS := ["role", "department", "phone"]

  lemma PayloadKeysDistinct(form: Val)
    requires !Nullish(Get(form, "profile"))
    ensures DistinctKeys(Keys(CreatePayload(form).value.fields))
  {
    PayloadKeysLiteral();
  }

  lemma PayloadKeysLiteral()
    ensures DistinctKeys(PAYLOAD_KEYS)
  {
  }

  lemma PayloadProfileFields(p: Val)
    ensures var q := PayloadProfileOf(p);
      && Get(q, "role") == Get(p, "role")
      && Get(q, "department") == Get(p, "department")
      && Get(q, "phone") == Get(p, "phone")
      && Get(q, "first_name") == Undefined
      && Get(q, "last_name") == Undefined
  {
    var fs := PayloadProfileOf(p).fields;
    assert DistinctKeys(PAYLOAD_PROFILE_KEYS);
    LookupDistinct(fs, 0);
    LookupDistinct(fs, 1);
    LookupDistinct(fs, 2);
  }

  /** The create form's profile is an object whose `phone` is '' or absent. */
  predicate FormValid(form: Val) {
    var p := Get(form, "profile");
    p.Obj? && (Get(p, "phone") == Str("") || Get(p, "phone") == Undefined)
  }

  lemma ResetFormValid()
    ensures FormValid(RESET_CREATE_FORM)
  {
    assert DistinctKeys(CREATE_FORM_KEYS);
    LookupDistinct(RESET_CREATE_FORM.fields, 3);
    assert "phone" !in NAME_ROLE_KEYS;
  }

  lemma InitialFormValid()
    ensures FormValid(INITIAL_CREATE_FORM)
  {
    BlankPhone();
    assert DistinctKeys(CREATE_FORM_KEYS);
    LookupDistinct(INITIAL_CREATE_FORM.fields, 3);
  }

  lemma BlankPhone()
    ensures BlankProfile(true).Obj? && Get(BlankProfile(true), "phone") == Str("")
  {
    var fs := BlankProfile(true).fields;
    ProfileKeysDistinct();
    assert Keys(fs) == PROFILE_KEYS && fs[4] == Field("phone", Str(""));
    LookupDistinct(fs, 4);
  }

  lemma ProfileKeysDistinct()
    ensures DistinctKeys(PROFILE_KEYS)
  {
  }

  /** No create-form input replaces the profile object or reaches `phone`. */
  lemma CreateInputKeepsValid(form: Val, name: string, value: Val)
    requires FormValid(form)
    ensures FormValid(CreateInput(form, name, value))
    ensures Get(Get(CreateInput(form, name, value), "profile"), "phone") == Get(Get(form, "profile"), "phone")
  {
    if name in TOP_INPUTS {
      CreateInputTop(form, name, value, "phone");
    } else if name in PROFILE_INPUTS {
      var p := Get(form, "profile");
      assert name != "phone" by { assert "phone" !in PROFILE_INPUTS; }
      GetSet(form, "profile", Set(p, name, value), "profile");
      assert Get(CreateInput(form, name, value), "profile") == Set(p, name, value);
      CreateInputProfile(form, name, value, "phone");
    }
  }

  // ------------------------------------------------------------ list updates

  /** No element is null or undefined, so reading `user.id` cannot throw. */
  predicate NoNullish(users: seq<Val>) {
    forall i :: 0 <= i < |users| ==> !Nullish(users[i])
  }

  /** `users.map(user => user.id === updatedUser.id ? updatedUser : user)`. */
  function ReplaceById(users: seq<Val>, updated: Val): (r: seq<Val>)
    ensures |r| == |users|
    ensures forall i :: 0 <= i < |users| && StrictEq(Get(users[i], "id"), Get(updated, "id")) ==> r[i] == updated
    ensures forall i :: 0 <= i < |users| && !StrictEq(Get(users[i], "id"), Get(updated, "id")) ==> r[i] == users[i]
  {
    if users == [] then []
    else [if StrictEq(Get(users[0], "id"), Get(updated, "id")) then updated else users[0]] + ReplaceById(users[1..], updated)
  }

  /** The map throws exactly when its callback runs on a missing element or
      with a missing reply: `user.id` is read first, then `updatedUser.id`. */
  predicate ReplaceThrows(users: seq<Val>, updated: Val) {
    users != [] && (Nullish(users[0]) || Nullish(updated) || !NoNullish(users))
  }

  /** Saving the same reply twice gives the same list as saving it once. */
  lemma ReplaceIdempotent(users: seq<Val>, updated: Val)
    ensures ReplaceById(ReplaceById(users, updated), updated) == ReplaceById(users, updated)
  {
  }

  /** `users.filter(user => user.id !== id)`. */
  function RemoveById(users: seq<Val>, id: Val): seq<Val> {
    if users == [] then []
    else Kept(users[0], id) + RemoveById(users[1..], id)
  }

  /** What the filter keeps of one entry. */
  function Kept(u: Val, id: Val): seq<Val> {
    if StrictEq(Get(u, "id"), id) then [] else [u]
  }

  /** The message `handleDeleteUser` shows when the deletion fails. */
  function DeleteFailed(user: Val): string {
    "Error al eliminar al usuario " + ToJsString(Get(user, "username")) + "."
  }

  /** Deleting removes exactly the entries with the id and keeps the others
      in their order. */
  lemma {:induction false} RemoveByIdMeaning(users: seq<Val>, more: seq<Val>, id: Val, u: Val)
    ensures forall x :: x in RemoveById(users, id) ==> x in users && Get(x, "id") != id
    ensures u in users && Get(u, "id") != id ==> u in RemoveById(users, id)
    ensures RemoveById(users + more, id) == RemoveById(users, id) + RemoveById(more, id)
  {
    RemoveByIdSubset(users, id);
    if u in users && Get(u, "id") != id {
      RemoveByIdKeeps(users, id, u);
    }
    RemoveByIdAppend(users, more, id);
  }

  lemma {:induction false} RemoveByIdSubset(users: seq<Val>, id: Val)
    ensures forall x :: x in RemoveById(users, id) ==> x in users && Get(x, "id") != id
  {
    if users != [] {
      RemoveByIdSubset(users[1..], id);
      var head := Kept(users[0], id);
      forall x | x in RemoveById(users, id) ensures x in users && Get(x, "id") != id {
        assert x in head || x in RemoveById(users[1..], id);
      }
    }
  }

  lemma {:induction false} RemoveByIdKeeps(users: seq<Val>, id: Val, u: Val)
    requires u in users && Get(u, "id") != id
    ensures u in RemoveById(users, id)
  {
    if users[0] != u {
      assert u in users[1..];
      RemoveByIdKeeps(users[1..], id, u);
    }
  }

  lemma {:induction false} RemoveByIdAppend(users: seq<Val>, more: seq<Val>, id: Val)
    ensures RemoveById(users + more, id) == RemoveById(users, id) + RemoveById(more, id)
  {
    if users == [] {
      assert users + more == more;
    } else {
      var um := users + more;
      assert um != [] && um[0] == users[0] && um[1..] == users[1..] + more;
      RemoveByIdAppend(users[1..], more, id);
      calc {
        RemoveById(um, id);
        Kept(users[0], id) + RemoveById(users[1..] + more, id);
        Kept(users[0], id) + (RemoveById(users[1..], id) + RemoveById(more, id));
        (Kept(users[0], id) + RemoveById(users[1..], id)) + RemoveById(more, id);
      }
    }
  }

  /** The list shown: only users whose `is_staff` is falsy. */
  function VisibleUsers(users: seq<Val>): seq<Val> {
    Filter(users, u => !Truthy(Get(u, "is_staff")))
  }

  /** No staff user is shown, every other user is, in order. */
  lemma {:induction false} VisibleUsersMeaning(users: seq<Val>, more: seq<Val>, u: Val)
    ensures forall x :: x in VisibleUsers(users) ==> x in users && !Truthy(Get(x, "is_staff"))
    ensures u in users && !Truthy(Get(u, "is_staff")) ==> u in VisibleUsers(users)
    ensures VisibleUsers(users + more) == VisibleUsers(users) + VisibleUsers(more)
  {
    var p := (x: Val) => !Truthy(Get(x, "is_staff"));
    if u in users && p(u) {
      FilterKeeps(users, p, u);
    }
    FilterAppend(users, more, p);
  }

  /** `fetchUsers`: the list when the body has an array `results`. */
  function UsersFromResponse(data: Val): (r: Option<seq<Val>>)
    ensures r.Some? <==> Truthy(data) && Get(data, "results").Arr?
    ensures r.Some? ==> r.value == Get(data, "results").items
  {
    if Truthy(data) && Get(data, "results").Arr? then Some(Get(data, "results").items) else None
  }

  /** The message set when `createUser` fails: the JSON of the response body
      when there is one, else the error's message. Reading `response` of a
      missing error throws from the `catch` block (None). */
  function CreateErrorText(err: Val): (r: Option<string>)
    ensures r.None? <==> Nullish(err)
  {
    if Nullish(err) then None
    else
      var data := Get(Get(err, "response"), "data");
      Some("Error al crear el usuario: " + (if Truthy(data) then Stringify(data) else ToJsString(Get(err, "message"))))
  }

  /** What the screen shows. */
  datatype View = LoadingView | ErrorView(message: Val) | MainView(list: Option<seq<Val>>)

  /** The screen's state and its event handlers. `confirm` answers are inputs. */
  class UsersScreen {
    var users: seq<Val>
    var loading: bool
    var error: Val
    var selectedUser: Val
    var isEditing: bool
    var editFormData: Val
    var isCreating: bool
    var createFormData: Val

    /** The create form always holds a profile object whose `phone` was
        never typed in: it is '' at first and absent after every reset. */
    predicate Valid()
      reads this
    {
      FormValid(createFormData)
    }

    constructor ()
      ensures Valid()
      ensures users == [] && loading && error == Null && selectedUser == Null
      ensures !isEditing && editFormData == Null && !isCreating && createFormData == INITIAL_CREATE_FORM
    {
      InitialFormValid();
      users := [];
      loading := true;
      error := Null;
      selectedUser := Null;
      isEditing := false;
      editFormData := Null;
      isCreating := false;
      createFormData := INITIAL_CREATE_FORM;
    }

    /** The render: loading first, then the error, then the main view whose
        list appears when neither form is open and the list is not empty. */
    function Render(): (v: View)
      reads this
      ensures v.LoadingView? <==> loading
      ensures v.ErrorView? <==> !loading && Truthy(error)
      ensures v.MainView? && v.list.Some? ==> forall x :: x in v.list.value ==> x in users && !Truthy(Get(x, "is_staff"))
    {
      if loading then LoadingView
      else if Truthy(error) then ErrorView(error)
      else if !isCreating && !isEditing && |users| > 0 then MainView(Some(VisibleUsers(users)))
      else MainView(None)
    }

    /** `fetchUsers` with the reply of `getAllUsers`. */
    method FetchUsers(reply: Completion)
      modifies this
      ensures !loading
      ensures reply.Threw? ==> users == old(users) && error == Str("Error al cargar los usuarios.")
      ensures reply.Returned? && UsersFromResponse(reply.value).Some? ==>
        users == UsersFromResponse(reply.value).value && error == old(error)
      ensures reply.Returned? && UsersFromResponse(reply.value).None? ==>
        users == [] && error == Str("Formato de datos inesperado de la API.")
      ensures selectedUser == old(selectedUser) && isEditing == old(isEditing) && editFormData == old(editFormData)
      ensures isCreating == old(isCreating) && createFormData == old(createFormData)
    {
      loading := true;
      if reply.Threw? {
        error := Str("Error al cargar los usuarios.");
      } else {
        var found := UsersFromResponse(reply.value);
        if found.Some? {
          users := found.value;
        } else {
          error := Str("Formato de datos inesperado de la API.");
          users := [];
        }
      }
      loading := false;
    }

    /** `handleSelectUser`; reading the profile of a missing user throws. */
    method SelectUser(user: Val) returns (escaped: bool)
      requires Valid()
      modifies this
      ensures Valid()
      ensures escaped <==> Nullish(user)
      ensures escaped ==>
        selectedUser == old(selectedUser) && isEditing == old(isEditing)
        && editFormData == old(editFormData) && isCreating == old(isCreating) && createFormData == old(createFormData)
      ensures !escaped ==>
        selectedUser == SelectNormalize(user) && !isEditing && editFormData == Null
        && !isCreating && createFormData == RESET_CREATE_FORM
      ensures users == old(users) && loading == old(loading) && error == old(error)
    {
      escaped := Nullish(user);
      if !escaped {
        Select(SelectNormalize(user));
      }
    }

    /** Shows `sel` alone: both forms closed, the create form reset. */
    method Select(sel: Val)
      requires Valid()
      modifies this
      ensures Valid()
      ensures selectedUser == sel && !isEditing && editFormData == Null
        && !isCreating && createFormData == RESET_CREATE_FORM
      ensures users == old(users) && loading == old(loading) && error == old(error)
    {
      selectedUser := sel;
      isEditing := false;
      editFormData := Null;
      isCreating := false;
      ResetCreateForm();
    }

    /** `handleEditUser`: edit mode is switched on before the selected user is
        read, so a missing selection throws with the flag already set. */
    method EditUser() returns (escaped: bool)
      modifies this
      ensures isEditing
      ensures escaped <==> Nullish(old(selectedUser))
      ensures editFormData == if escaped then old(editFormData) else EditNormalize(old(selectedUser))
      ensures users == old(users) && loading == old(loading) && error == old(error) && selectedUser == old(selectedUser)
      ensures isCreating == old(isCreating) && createFormData == old(createFormData)
    {
      isEditing := true;
      if Nullish(selectedUser) {
        return true;
      }
      editFormData := EditNormalize(selectedUser);
      escaped := false;
    }

    /** `handleEditInputChange` */
    method EditInputChange(name: string, value: Val)
      modifies this
      ensures editFormData == EditInput(old(editFormData), name, value)
      ensures users == old(users) && loading == old(loading) && error == old(error) && selectedUser == old(selectedUser)
      ensures isEditing == old(isEditing) && isCreating == old(isCreating) && createFormData == old(createFormData)
    {
      editFormData := EditInput(editFormData, name, value);
    }

    /** `handleSaveEdit` with the reply of `updateUser`: nothing happens
        without a selection and form data; a success replaces the entries
        whose id matches the reply's and closes the editor; any failure,
        including one thrown by the map, sets the error. Returns the id and
        data sent. */
    method SaveEdit(reply: Completion) returns (sent: Option<(Val, Val)>)
      modifies this
      ensures !Truthy(old(selectedUser)) || !Truthy(old(editFormData)) ==>
        sent.None? && users == old(users) && error == old(error) && selectedUser == old(selectedUser)
        && isEditing == old(isEditing) && editFormData == old(editFormData)
      ensures Truthy(old(selectedUser)) && Truthy(old(editFormData)) ==>
        sent == Some((Get(old(selectedUser), "id"), old(editFormData)))
      ensures sent.Some? && (reply.Threw? || ReplaceThrows(old(users), reply.value)) ==>
        error == Str("Error al guardar cambios.") && users == old(users) && selectedUser == old(selectedUser)
        && isEditing == old(isEditing) && editFormData == old(editFormData)
      ensures sent.Some? && reply.Returned? && !ReplaceThrows(old(users), reply.value) ==>
        users == ReplaceById(old(users), reply.value) && error == old(error)
        && selectedUser == Null && !isEditing && editFormData == Null
      ensures loading == old(loading) && isCreating == old(isCreating) && createFormData == old(createFormData)
    {
      if !Truthy(selectedUser) || !Truthy(editFormData) {
        return None;
      }
      sent := Some((Get(selectedUser, "id"), editFormData));
      if reply.Threw? || ReplaceThrows(users, reply.value) {
        error := Str("Error al guardar cambios.");
        return;
      }
      users := ReplaceById(users, reply.value);
      selectedUser := Null;
      isEditing := false;
      editFormData := Null;
    }

    /** `handleCancelEdit` */
    method CancelEdit()
      modifies this
      ensures !isEditing && editFormData == Null
      ensures users == old(users) && loading == old(loading) && error == old(error) && selectedUser == old(selectedUser)
      ensures isCreating == old(isCreating) && createFormData == old(createFormData)
    {
      isEditing := false;
      editFormData := Null;
    }

    /** `handleCreateNewUser` */
    method CreateNewUser()
      modifies this
      ensures Valid()
      ensures selectedUser == Null && !isEditing && editFormData == Null && isCreating && createFormData == RESET_CREATE_FORM
      ensures users == old(users) && loading == old(loading) && error == old(error)
    {
      selectedUser := Null;
      isEditing := false;
      editFormData := Null;
      isCreating := true;
      ResetCreateForm();
    }

    /** `handleCreateInputChange` */
    method CreateInputChange(name: string, value: Val)
      requires Valid()
      modifies this
      ensures Valid()
      ensures createFormData == CreateInput(old(createFormData), name, value)
      ensures users == old(users) && loading == old(loading) && error == old(error) && selectedUser == old(selectedUser)
      ensures isEditing == old(isEditing) && editFormData == old(editFormData) && isCreating == old(isCreating)
    {
      CreateInputKeepsValid(createFormData, name, value);
      createFormData := CreateInput(createFormData, name, value);
    }

    /** `handleSaveNewUser` with the reply of `createUser`. On success the
        form closes and is reset and the list reload starts (`loading` is
        set; its end is a later FetchUsers). Returns the payload sent. */
    method SaveNewUser(reply: Completion) returns (sent: Val, escaped: bool)
      requires Valid()
      modifies this
      ensures Valid()
      ensures sent == CreatePayload(old(createFormData)).value
      ensures escaped <==> reply.Threw? && Nullish(reply.error)
      ensures reply.Returned? ==> loading && !isCreating && createFormData == RESET_CREATE_FORM && error == old(error)
      ensures reply.Threw? && !escaped ==> error == Str(CreateErrorText(reply.error).value)
      ensures reply.Threw? ==> loading == old(loading) && isCreating == old(isCreating) && createFormData == old(createFormData)
      ensures reply.Threw? && escaped ==> error == old(error)
      ensures users == old(users) && selectedUser == old(selectedUser) && isEditing == old(isEditing) && editFormData == old(editFormData)
    {
      sent := CreatePayload(createFormData).value;
      escaped := false;
      if reply.Returned? {
        loading := true;
        isCreating := false;
        ResetCreateForm();
      } else {
        var text := CreateErrorText(reply.error);
        if text.None? {
          escaped := true;
        } else {
          error := Str(text.value);
        }
      }
    }

    /** `handleCancelCreate` */
    method CancelCreate()
      modifies this
      ensures Valid()
      ensures !isCreating && createFormData == RESET_CREATE_FORM
      ensures users == old(users) && loading == old(loading) && error == old(error) && selectedUser == old(selectedUser)
      ensures isEditing == old(isEditing) && editFormData == old(editFormData)
    {
      isCreating := false;
      ResetCreateForm();
    }

    /** The `setCreateFormData` reset shared by several handlers. */
    method ResetCreateForm()
      modifies this
      ensures Valid() && createFormData == RESET_CREATE_FORM
      ensures users == old(users) && loading == old(loading) && error == old(error) && selectedUser == old(selectedUser)
      ensures isEditing == old(isEditing) && editFormData == old(editFormData) && isCreating == old(isCreating)
    {
      ResetFormValid();
      createFormData := RESET_CREATE_FORM;
    }

    /** `handleDeleteUser` with the user's answer to the confirmation and the
        reply of `deleteUser`. Returns the id whose deletion was requested. */
    method DeleteUser(confirmed: bool, reply: Completion) returns (requested: Option<Val>)
      modifies this
      ensures requested.Some? <==> Truthy(old(selectedUser)) && confirmed
      ensures requested.Some? ==> requested.value == Get(old(selectedUser), "id")
      ensures requested.None? ==>
        users == old(users) && error == old(error) && selectedUser == old(selectedUser)
        && isEditing == old(isEditing) && editFormData == old(editFormData)
      ensures requested.Some? && (reply.Threw? || !NoNullish(old(users))) ==>
        error == Str(DeleteFailed(old(selectedUser)))
        && users == old(users) && selectedUser == old(selectedUser) && isEditing == old(isEditing) && editFormData == old(editFormData)
      ensures requested.Some? && reply.Returned? && NoNullish(old(users)) ==>
        users == RemoveById(old(users), requested.value) && error == old(error)
        && selectedUser == Null && !isEditing && editFormData == Null
      ensures loading == old(loading) && isCreating == old(isCreating) && createFormData == old(createFormData)
    {
      if !Truthy(selectedUser) || !confirmed {
        return None;
      }
      requested := Some(Get(selectedUser, "id"));
      if reply.Threw? || !NoNullish(users) {
        error := Str(DeleteFailed(selectedUser));
        return;
      }
      users := RemoveById(users, requested.value);
      selectedUser := Null;
      isEditing := false;
      editFormData := Null;
    }
  }

  /** The create payload is always built, and its `phone` is '' or absent:
      no input of the create form reaches it. */
  lemma PayloadPhoneNeverEntered(s: UsersScreen)
    requires s.Valid()
    ensures CreatePayload(s.createFormData).Some?
    ensures var ph := Get(Get(CreatePayload(s.createFormData).value, "profile"), "phone");
      ph == Str("") || ph == Undefined
  {
    PayloadProfile(s.createFormData);
  }
}
