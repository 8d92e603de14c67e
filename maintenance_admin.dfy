/** The data logic of pages/admin/GestionMantenimiento.jsx: the name lookups
    of the table, the normalisation of list responses, the technician filter,
    the form states, the submit validation and branch, and the list and
    selection updates after a delete or a completion. Service replies,
    today's date and the date formatting of `Date` are inputs. */
module MaintenanceAdmin {
  import opened JsValue

  // ------------------------------------------------------------ responses

  /** Whether a user record has the role 'tecnico'. */
  predicate IsTechnician(u: Val) {
    StrictEq(Get(u, "role"), Str("tecnico"))
  }

  /** The users kept by `filter(usuario => usuario.role === 'tecnico')`. */
  function TechniciansOf(items: seq<Val>): (r: seq<Val>)
    ensures |r| <= |items|
  {
    if items == [] then []
    else (if IsTechnician(items[0]) then [items[0]] else []) + TechniciansOf(items[1..])
  }

  /** The technician filter; it throws (None) when the list is not an array
      or holds a missing element. */
  function Technicians(users: Val): (r: Option<seq<Val>>)
    ensures r.Some? <==> users.Arr? && forall i :: 0 <= i < |users.items| ==> !Nullish(users.items[i])
    ensures r.Some? ==> r.value == TechniciansOf(users.items)
  {
    if users.Arr? && forall i :: 0 <= i < |users.items| ==> !Nullish(users.items[i]) then
      Some(TechniciansOf(users.items))
    else None
  }

  /** The filter keeps exactly the technicians ... */
  lemma {:induction false} TechniciansMembers(items: seq<Val>, u: Val)
    ensures u in TechniciansOf(items) <==> u in items && IsTechnician(u)
  {
    if items != [] {
      TechniciansMembers(items[1..], u);
    }
  }

  /** ... in their order: filtering distributes over concatenation. */
  lemma {:induction false} TechniciansAppend(a: seq<Val>, b: seq<Val>)
    ensures TechniciansOf(a + b) == TechniciansOf(a) + TechniciansOf(b)
  {
    if a == [] {
      assert a + b == b;
    } else {
      var head := if IsTechnician(a[0]) then [a[0]] else [];
      calc {
        TechniciansOf(a + b);
      == { assert a + b == [a[0]] + (a[1..] + b); TechniciansCons(a[0], a[1..] + b); }
        head + TechniciansOf(a[1..] + b);
      == { TechniciansAppend(a[1..], b); }
        head + (TechniciansOf(a[1..]) + TechniciansOf(b));
      ==
        (head + TechniciansOf(a[1..])) + TechniciansOf(b);
      == { assert a == [a[0]] + a[1..]; TechniciansCons(a[0], a[1..]); }
        TechniciansOf(a) + TechniciansOf(b);
      }
    }
  }

  lemma TechniciansCons(x: Val, rest: seq<Val>)
    ensures TechniciansOf([x] + rest) == (if IsTechnician(x) then [x] else []) + TechniciansOf(rest)
  {
    assert ([x] + rest)[1..] == rest;
  }

  // ------------------------------------------------------------ name lookups

  /** `getProductName(id)`: '--' for a falsy id or no match, else the `name`
      of the first product with that id; the lookup throws (None) on a list
      that is not an array or on a missing element met before the match. */
  function ProductName(products: Val, id: Val): (r: Option<Val>)
    ensures !Truthy(id) ==> r == Some(Str("--"))
    ensures Truthy(id) ==> (r.None? <==> !products.Arr? || FindThrows(products.items, id))
    ensures Truthy(id) && r.Some? && FindIndex(products.items, HasId(id)).None? ==> r == Some(Str("--"))
    ensures Truthy(id) && r.Some? && FindIndex(products.items, HasId(id)).Some? ==>
      r == Some(Get(products.items[FindIndex(products.items, HasId(id)).value], "name"))
  {
    if !Truthy(id) then Some(Str("--"))
    else if !products.Arr? || FindThrows(products.items, id) then None
    else
      FindFirst(products.items, id);
      var product := Find(products.items, HasId(id));
      Some(if Truthy(product) then Get(product, "name") else Str("--"))
  }

  /** The "first last" text `getUserName` trims. */
  function FullName(user: Val): string {
    ToJsString(Or(Get(user, "first_name"), Str(""))) + " " + ToJsString(Or(Get(user, "last_name"), Str("")))
  }

  /** The name shown for a found user: the trimmed "first last", else the
      username, else '--'. */
  function DisplayName(user: Val): Val {
    Or(Or(Str(Trim(FullName(user))), Get(user, "username")), Str("--"))
  }

  /** A non-blank full name is shown trimmed, with no space at either end; a
      blank one gives way to the username, then to '--'. */
  lemma DisplayNameChoice(user: Val)
    ensures Trim(FullName(user)) != "" ==> DisplayName(user) == Str(Trim(FullName(user)))
    ensures Trim(FullName(user)) != "" ==> !IsJsSpace(Trim(FullName(user))[0]) && !IsJsSpace(Trim(FullName(user))[|Trim(FullName(user))| - 1])
    ensures Trim(FullName(user)) == "" && Truthy(Get(user, "username")) ==> DisplayName(user) == Get(user, "username")
    ensures Trim(FullName(user)) == "" && !Truthy(Get(user, "username")) ==> DisplayName(user) == Str("--")
  {
    TrimHasNoOuterSpace(FullName(user));
  }

  /** `getUserName(id)`: '--' for a falsy id or no match, else the display
      name of the first user with that id. */
  function UserName(users: Val, id: Val): (r: Option<Val>)
    ensures !Truthy(id) ==> r == Some(Str("--"))
    ensures Truthy(id) ==> (r.None? <==> !users.Arr? || FindThrows(users.items, id))
    ensures Truthy(id) && r.Some? && FindIndex(users.items, HasId(id)).None? ==> r == Some(Str("--"))
    ensures Truthy(id) && r.Some? && FindIndex(users.items, HasId(id)).Some? ==>
      r == Some(DisplayName(users.items[FindIndex(users.items, HasId(id)).value]))
  {
    if !Truthy(id) then Some(Str("--"))
    else if !users.Arr? || FindThrows(users.items, id) then None
    else
      FindFirst(users.items, id);
      var user := Find(users.items, HasId(id));
      Some(if Truthy(user) then DisplayName(user) else Str("--"))
  }

  // ------------------------------------------------------------ the form

  /** The form's properties, in order. */
  const FORM_KEYS: seq<string> :=
    ["product", "technician", "status", "description", "diagnosis", "solution", "start_date", "completion_date", "cost", "notes"]

  /** A form object with the given values, in FORM_KEYS order. */
  function FormOf(vals: seq<Val>): (r: Val)
    requires |vals| == |FORM_KEYS|
    ensures r.Obj? && Keys(r.fields) == FORM_KEYS
  {
    Record(FORM_KEYS, vals)
  }

  lemma FormKeysDistinct()
    ensures DistinctKeys(FORM_KEYS)
  {
  }

  lemma FormOfGet(vals: seq<Val>, i: nat)
    requires |vals| == |FORM_KEYS| && i < |FORM_KEYS|
    ensures Get(FormOf(vals), FORM_KEYS[i]) == vals[i]
  {
    FormKeysDistinct();
    LookupDistinct(FormOf(vals).fields, i);
  }

  /** The form after a reset: every property ''. */
  function EmptyForm(): Val {
    FormOf(seq(|FORM_KEYS|, _ => Str("")))
  }

  /** `handleCreateRegistro`'s form: status 'pending', start date today,
      everything else ''. */
  function NewForm(today: Val): Val {
    FormOf([Str(""), Str(""), Str("pending"), Str(""), Str(""), Str(""), today, Str(""), Str(""), Str("")])
  }

  /** The new form holds exactly FORM_KEYS, with 'pending' as status,
      today as start date and '' elsewhere. */
  lemma NewFormFields(today: Val)
    ensures Keys(NewForm(today).fields) == FORM_KEYS
    ensures Get(NewForm(today), "product") == Str("")
    ensures Get(NewForm(today), "technician") == Str("")
    ensures Get(NewForm(today), "status") == Str("pending")
    ensures Get(NewForm(today), "description") == Str("")
    ensures Get(NewForm(today), "diagnosis") == Str("")
    ensures Get(NewForm(today), "solution") == Str("")
    ensures Get(NewForm(today), "start_date") == today
    ensures Get(NewForm(today), "completion_date") == Str("")
    ensures Get(NewForm(today), "cost") == Str("")
    ensures Get(NewForm(today), "notes") == Str("")
  {
    var vals := [Str(""), Str(""), Str("pending"), Str(""), Str(""), Str(""), today, Str(""), Str(""), Str("")];
    FormOfGet(vals, 0);
    FormOfGet(vals, 1);
    FormOfGet(vals, 2);
    FormOfGet(vals, 3);
    FormOfGet(vals, 4);
    FormOfGet(vals, 5);
    FormOfGet(vals, 6);
    FormOfGet(vals, 7);
    FormOfGet(vals, 8);
    FormOfGet(vals, 9);
  }

  /** A new form cannot be saved before a product is chosen. */
  lemma NewFormIncomplete(today: Val)
    ensures MissingRequired(NewForm(today))
  {
    var vals := [Str(""), Str(""), Str("pending"), Str(""), Str(""), Str(""), today, Str(""), Str(""), Str("")];
    FormOfGet(vals, 0);
  }

  /** The values of `handleEditRegistro`'s form, in FORM_KEYS order.
      `isoDay(x)` stands for `new Date(x).toISOString().split('T')[0]`. */
  function EditValues(registro: Val, isoDay: Val -> Val): (vals: seq<Val>)
    ensures |vals| == |FORM_KEYS|
  {
    var start := Get(registro, "start_date");
    var done := Get(registro, "completion_date");
    [ Or(Get(registro, "product"), Str("")),
      Or(Get(registro, "technician"), Str("")),
      Or(Get(registro, "status"), Str("")),
      Or(Get(registro, "description"), Str("")),
      Or(Get(registro, "diagnosis"), Str("")),
      Or(Get(registro, "solution"), Str("")),
      if Truthy(start) then isoDay(start) else Str(""),
      if Truthy(done) then isoDay(done) else Str(""),
      if Get(registro, "cost").Undefined? then Str("") else Get(registro, "cost"),
      Or(Get(registro, "notes"), Str(""))]
  }

  /** `handleEditRegistro`'s form. */
  function EditForm(registro: Val, isoDay: Val -> Val): Val {
    FormOf(EditValues(registro, isoDay))
  }

  /** `!formData.product || !formData.technician || !formData.status || !formData.start_date` */
  predicate MissingRequired(form: Val) {
    !Truthy(Get(form, "product")) || !Truthy(Get(form, "technician"))
    || !Truthy(Get(form, "status")) || !Truthy(Get(form, "start_date"))
  }

  /** A record loaded into the editor can be saved unchanged exactly when it
      has a product, a technician, a status and a start date that formats to
      a non-empty text. */
  lemma EditFormRequired(registro: Val, isoDay: Val -> Val)
    ensures MissingRequired(EditForm(registro, isoDay)) <==>
      !Truthy(Get(registro, "product")) || !Truthy(Get(registro, "technician"))
      || !Truthy(Get(registro, "status")) || !Truthy(Get(registro, "start_date"))
      || !Truthy(isoDay(Get(registro, "start_date")))
  {
    var form := EditForm(registro, isoDay);
    EditFormCopied(registro, isoDay, 0, "product");
    EditFormCopied(registro, isoDay, 1, "technician");
    EditFormCopied(registro, isoDay, 2, "status");
    EditFormStartDate(registro, isoDay);
    assert MissingRequired(form) <==>
      !Truthy(Get(form, "product")) || !Truthy(Get(form, "technician"))
      || !Truthy(Get(form, "status")) || !Truthy(Get(form, "start_date"));
  }

  /** Product, technician and status are copied with `|| ''`, which keeps
      their truthiness. */
  lemma EditFormCopied(registro: Val, isoDay: Val -> Val, i: nat, key: string)
    requires i < 3 && key == FORM_KEYS[i]
    ensures Truthy(Get(EditForm(registro, isoDay), key)) == Truthy(Get(registro, key))
  {
    var vals := EditValues(registro, isoDay);
    FormOfGet(vals, i);
    assert vals[i] == Or(Get(registro, key), Str(""));
  }

  /** The start date is kept only when it is set and formats to a non-empty text. */
  lemma EditFormStartDate(registro: Val, isoDay: Val -> Val)
    ensures Truthy(Get(EditForm(registro, isoDay), "start_date")) ==
      (Truthy(Get(registro, "start_date")) && Truthy(isoDay(Get(registro, "start_date"))))
  {
    var vals := EditValues(registro, isoDay);
    FormOfGet(vals, 6);
    assert FORM_KEYS[6] == "start_date";
  }

  /** The service call `handleSubmit` makes. */
  datatype Call = NoCall | Update(id: Val, data: Val) | Create(data: Val)

  const REQUIRED_MESSAGE := "Por favor, complete los campos obligatorios (Producto, Técnico, Estado, Fecha Inicio)."

  /** The branch of `handleSubmit`: no call while a required field is
      missing; an update of the selected record while editing one; a
      creation otherwise. */
  function SubmitCall(form: Val, isEditing: bool, selected: Val): (c: Call)
    ensures c.NoCall? <==> MissingRequired(form)
    ensures c.Update? <==> !MissingRequired(form) && isEditing && Truthy(selected)
    ensures c.Update? ==> c.id == Get(selected, "id") && c.data == form
    ensures c.Create? ==> c.data == form
  {
    if MissingRequired(form) then NoCall
    else if isEditing && Truthy(selected) then Update(Get(selected, "id"), form)
    else Create(form)
  }

  /** The body `handleCompleteMaintenance` sends. */
  function CompletePatch(today: Val): (r: Val)
    ensures r.Obj? && Keys(r.fields) == ["status", "completion_date"]
    ensures Get(r, "status") == Str("completed") && Get(r, "completion_date") == today
  {
    var fs := [Field("status", Str("completed")), Field("completion_date", today)];
    assert Keys(fs[..1]) == ["status"];
    LookupAt(fs, 1);
    Obj(fs)
  }

  /** The selection after a delete or a completion of the record `id`. */
  function ClearIfSelected(selected: Val, id: Val): (r: Val)
    ensures r == selected || r == Null
    ensures r == Null <==> selected == Null || (Truthy(selected) && StrictEq(Get(selected, "id"), id))
    ensures Truthy(r) ==> !StrictEq(Get(r, "id"), id)
  {
    if Truthy(selected) && StrictEq(Get(selected, "id"), id) then Null else selected
  }

  /** A list reload (`await getMaintenanceRecords()` and its normalisation):
      the list, or what was thrown. */
  function Reload(reply: Completion): (r: Completion)
    ensures reply.Threw? ==> r == reply
    ensures reply.Returned? && !Nullish(reply.value) ==> r == Returned(NormalizeList(reply.value).value)
    ensures reply.Returned? && Nullish(reply.value) ==> r == Threw(TypeErrorObj())
  {
    if reply.Threw? then reply
    else match NormalizeList(reply.value)
      case None => Threw(TypeErrorObj())
      case Some(list) => Returned(list)
  }

  /** What ends the `try` of `fetchData` early: the first rejected request
      in argument order, or the TypeError of normalising a missing reply or
      filtering a list that is not an array of records. */
  function FetchFailure(records: Completion, products: Completion, users: Completion): (r: Option<Val>)
    ensures r.None? ==>
      records.Returned? && products.Returned? && users.Returned?
      && NormalizeList(records.value).Some? && NormalizeList(products.value).Some?
      && NormalizeList(users.value).Some? && Technicians(NormalizeList(users.value).value).Some?
  {
    if records.Threw? then Some(records.error)
    else if products.Threw? then Some(products.error)
    else if users.Threw? then Some(users.error)
    else if Nullish(records.value) || Nullish(products.value) || Nullish(users.value) then Some(TypeErrorObj())
    else if Technicians(NormalizeList(users.value).value).None? then Some(TypeErrorObj())
    else None
  }

  /** The three lists `fetchData` stores when nothing failed: the records
      and products normalised, and the technicians among the users. */
  function Loaded(records: Completion, products: Completion, users: Completion): (r: (Val, Val, Val))
    requires FetchFailure(records, products, users).None?
  {
    (NormalizeList(records.value).value, NormalizeList(products.value).value,
     Arr(Technicians(NormalizeList(users.value).value).value))
  }

  const CREATE_TITLE := "Crear Nuevo Registro de Mantenimiento"
  const EDIT_TITLE := "Editar Registro de Mantenimiento"

  /** The open form: its heading, whether the start and completion dates are
      shown, and the label of its submit button. */
  datatype FormView = FormView(title: string, dates: bool, submitLabel: string)

  /** What the screen renders: the loading text, the error alone, or the page
      with the list, the form and the details panel that are visible. */
  datatype View =
    | LoadingView
    | ErrorView(message: Val)
    | PageView(list: bool, form: Option<FormView>, details: bool)

  /** The screen's state and its handlers. `confirm` answers are inputs. */
  class MaintenanceScreen {
    var registros: Val
    var productos: Val
    var usuarios: Val
    var loading: bool
    var error: Val
    var selectedRegistro: Val
    var isCreating: bool
    var isEditing: bool
    var formData: Val

    /** The form is an object, and creating and editing never coexist. */
    predicate Valid()
      reads this
    {
      formData.Obj? && !(isCreating && isEditing)
    }

    /** The render: the list and the form never show together, the details
        show under the list for a selected record, and in a valid state the
        form is the creation form exactly while creating; only the edit form
        shows the dates. */
    function Render(): (v: View)
      reads this
      ensures loading <==> v.LoadingView?
      ensures v.ErrorView? <==> !loading && Truthy(error)
      ensures v.PageView? ==> (v.list <==> v.form.None?) && (v.details <==> v.list && Truthy(selectedRegistro))
      ensures v.PageView? && Valid() && v.form.Some? ==>
        (v.form.value.title == CREATE_TITLE <==> isCreating) && (v.form.value.dates <==> !isCreating)
    {
      if loading then LoadingView
      else if Truthy(error) then ErrorView(error)
      else PageView(
        !isCreating && !isEditing,
        if isCreating || isEditing then
          Some(FormView(if isEditing then EDIT_TITLE else CREATE_TITLE, isEditing,
                        if isEditing then "Actualizar" else "Guardar"))
        else None,
        Truthy(selectedRegistro) && !isCreating && !isEditing)
    }

    constructor ()
      ensures Valid()
      ensures registros == Arr([]) && productos == Arr([]) && usuarios == Arr([])
      ensures loading && error == Null && selectedRegistro == Null && !isCreating && !isEditing
      ensures formData == EmptyForm()
    {
      registros := Arr([]);
      productos := Arr([]);
      usuarios := Arr([]);
      loading := true;
      error := Null;
      selectedRegistro := Null;
      isCreating := false;
      isEditing := false;
      formData := EmptyForm();
    }

    /** The initial `fetchData` with the replies of the three requests; a
        rejection is reported for the first failing request in argument
        order. The lists are stored only when all three normalise and the
        technician filter succeeds; a missing error escapes the `catch`
        with `loading` still set. */
    method FetchData(records: Completion, products: Completion, users: Completion) returns (escaped: bool)
      modifies this
      ensures FetchFailure(records, products, users).None? ==>
        (registros, productos, usuarios) == Loaded(records, products, users)
        && !loading && error == Null && !escaped
      ensures FetchFailure(records, products, users).Some? ==>
        registros == old(registros) && productos == old(productos) && usuarios == old(usuarios)
      ensures FetchFailure(records, products, users).Some? ==>
        (escaped <==> Nullish(FetchFailure(records, products, users).value))
      ensures escaped ==> loading && error == Null
      ensures FetchFailure(records, products, users).Some? && !escaped ==>
        !loading && error == MessageOr(FetchFailure(records, products, users).value, "Error al cargar datos de mantenimiento").value
      ensures selectedRegistro == old(selectedRegistro) && isCreating == old(isCreating)
      ensures isEditing == old(isEditing) && formData == old(formData)
    {
      loading := true;
      error := Null;
      var failure := FetchFailure(records, products, users);
      if failure.None? {
        registros, productos, usuarios := Loaded(records, products, users).0,
          Loaded(records, products, users).1, Loaded(records, products, users).2;
        loading := false;
        escaped := false;
      } else {
        escaped := CatchAndStop(failure.value, "Error al cargar datos de mantenimiento");
      }
    }

    /** A `catch` block that shows `err.message || fallback` and ends the
        loading state; it throws itself on a missing error. */
    method CatchAndStop(err: Val, fallback: string) returns (escaped: bool)
      modifies this
      ensures escaped <==> Nullish(err)
      ensures !escaped ==> error == MessageOr(err, fallback).value && !loading
      ensures escaped ==> error == old(error) && loading == old(loading)
      ensures registros == old(registros) && productos == old(productos) && usuarios == old(usuarios)
      ensures selectedRegistro == old(selectedRegistro) && isCreating == old(isCreating)
      ensures isEditing == old(isEditing) && formData == old(formData)
    {
      var message := MessageOr(err, fallback);
      escaped := message.None?;
      if !escaped {
        error := message.value;
        loading := false;
      }
    }

    /** `handleCreateRegistro` */
    method CreateRegistro(today: Val)
      modifies this
      ensures Valid()
      ensures isCreating && !isEditing && selectedRegistro == Null && formData == NewForm(today)
      ensures registros == old(registros) && productos == old(productos) && usuarios == old(usuarios)
      ensures loading == old(loading) && error == old(error)
    {
      isCreating := true;
      isEditing := false;
      selectedRegistro := Null;
      formData := NewForm(today);
    }

    /** `handleEditRegistro`: the flags and the selection are set before the
        record is read, so a missing record throws after them. */
    method EditRegistro(registro: Val, isoDay: Val -> Val) returns (escaped: bool)
      requires Valid()
      modifies this
      ensures Valid()
      ensures isEditing && !isCreating && selectedRegistro == registro
      ensures escaped <==> Nullish(registro)
      ensures formData == if escaped then old(formData) else EditForm(registro, isoDay)
      ensures registros == old(registros) && productos == old(productos) && usuarios == old(usuarios)
      ensures loading == old(loading) && error == old(error)
    {
      isEditing := true;
      isCreating := false;
      selectedRegistro := registro;
      escaped := Nullish(registro);
      if !escaped {
        formData := EditForm(registro, isoDay);
      }
    }

    /** `handleInputChange` with the value already converted (`parseFloat`
        for number inputs is not part of this model). */
    method InputChange(name: string, value: Val)
      requires Valid()
      modifies this
      ensures Valid()
      ensures formData == Set(old(formData), name, value)
      ensures registros == old(registros) && productos == old(productos) && usuarios == old(usuarios)
      ensures loading == old(loading) && error == old(error) && selectedRegistro == old(selectedRegistro)
      ensures isCreating == old(isCreating) && isEditing == old(isEditing)
    {
      formData := Set(formData, name, value);
    }

    /** The reset shared by a successful submit and `handleCancel`. */
    method CloseForm()
      modifies this
      ensures Valid()
      ensures !isCreating && !isEditing && selectedRegistro == Null && formData == EmptyForm()
      ensures registros == old(registros) && productos == old(productos) && usuarios == old(usuarios)
      ensures loading == old(loading) && error == old(error)
    {
      isCreating := false;
      isEditing := false;
      selectedRegistro := Null;
      formData := EmptyForm();
    }

    /** `handleSubmit` with the replies of the write and of the reload.
        Returns the call made. */
    method Submit(write: Completion, reload: Completion) returns (call: Call, escaped: bool)
      requires Valid()
      modifies this
      ensures Valid()
      ensures call == SubmitCall(old(formData), old(isEditing), old(selectedRegistro))
      ensures call.NoCall? ==>
        error == Str(REQUIRED_MESSAGE) && !escaped && registros == old(registros)
        && isCreating == old(isCreating) && isEditing == old(isEditing)
        && selectedRegistro == old(selectedRegistro) && formData == old(formData)
      ensures var outcome := if write.Threw? then write else Reload(reload);
        && (!call.NoCall? && outcome.Returned? ==>
            registros == outcome.value && error == Null && !escaped
            && !isCreating && !isEditing && selectedRegistro == Null && formData == EmptyForm())
        && (!call.NoCall? && outcome.Threw? ==>
            registros == old(registros) && (escaped <==> Nullish(outcome.error))
            && error == (if escaped then Null else MessageOr(outcome.error, "Error al guardar el registro de mantenimiento").value)
            && isCreating == old(isCreating) && isEditing == old(isEditing)
            && selectedRegistro == old(selectedRegistro) && formData == old(formData))
      ensures productos == old(productos) && usuarios == old(usuarios) && loading == old(loading)
    {
      error := Null;
      call := SubmitCall(formData, isEditing, selectedRegistro);
      if call.NoCall? {
        error := Str(REQUIRED_MESSAGE);
        return call, false;
      }
      var outcome := if write.Threw? then write else Reload(reload);
      if outcome.Threw? {
        var message := MessageOr(outcome.error, "Error al guardar el registro de mantenimiento");
        if message.None? {
          return call, true;
        }
        error := message.value;
        return call, false;
      }
      registros := outcome.value;
      CloseForm();
      escaped := false;
    }

    /** `handleCancel` */
    method Cancel()
      modifies this
      ensures Valid()
      ensures !isCreating && !isEditing && selectedRegistro == Null && formData == EmptyForm()
      ensures registros == old(registros) && productos == old(productos) && usuarios == old(usuarios)
      ensures loading == old(loading) && error == old(error)
    {
      CloseForm();
    }

    /** The common tail of `handleDeleteRegistro` and
        `handleCompleteMaintenance` once the user confirmed: the write, the
        reload, and the selection cleared when it is the affected record. */
    method AfterWrite(id: Val, write: Completion, reload: Completion, fallback: string) returns (escaped: bool)
      requires Valid()
      modifies this
      ensures Valid()
      ensures var outcome := if write.Threw? then write else Reload(reload);
        && (outcome.Returned? ==>
            registros == outcome.value && error == Null && !escaped
            && selectedRegistro == ClearIfSelected(old(selectedRegistro), id))
        && (outcome.Threw? ==>
            registros == old(registros) && selectedRegistro == old(selectedRegistro)
            && (escaped <==> Nullish(outcome.error))
            && error == (if escaped then Null else MessageOr(outcome.error, fallback).value))
      ensures productos == old(productos) && usuarios == old(usuarios) && loading == old(loading)
      ensures isCreating == old(isCreating) && isEditing == old(isEditing) && formData == old(formData)
    {
      error := Null;
      var outcome := if write.Threw? then write else Reload(reload);
      if outcome.Threw? {
        var message := MessageOr(outcome.error, fallback);
        if message.None? {
          return true;
        }
        error := message.value;
        return false;
      }
      registros := outcome.value;
      selectedRegistro := ClearIfSelected(selectedRegistro, id);
      escaped := false;
    }

    /** `handleDeleteRegistro(id)`: nothing without confirmation. */
    method DeleteRegistro(id: Val, confirmed: bool, write: Completion, reload: Completion) returns (requested: bool, escaped: bool)
      requires Valid()
      modifies this
      ensures Valid()
      ensures requested == confirmed
      ensures !confirmed ==>
        !escaped && registros == old(registros) && error == old(error) && selectedRegistro == old(selectedRegistro)
      ensures confirmed ==> var outcome := if write.Threw? then write else Reload(reload);
        && (outcome.Returned? ==>
            registros == outcome.value && error == Null && !escaped
            && selectedRegistro == ClearIfSelected(old(selectedRegistro), id))
        && (outcome.Threw? ==>
            registros == old(registros) && selectedRegistro == old(selectedRegistro)
            && (escaped <==> Nullish(outcome.error))
            && error == (if escaped then Null else MessageOr(outcome.error, "Error al eliminar el registro de mantenimiento").value))
      ensures productos == old(productos) && usuarios == old(usuarios) && loading == old(loading)
      ensures isCreating == old(isCreating) && isEditing == old(isEditing) && formData == old(formData)
    {
      requested := confirmed;
      escaped := false;
      if confirmed {
        escaped := AfterWrite(id, write, reload, "Error al eliminar el registro de mantenimiento");
      }
    }

    /** `handleCompleteMaintenance(id)`: after confirmation, sends exactly
        CompletePatch(today) for `id`. */
    method CompleteMaintenance(id: Val, today: Val, confirmed: bool, write: Completion, reload: Completion)
      returns (sent: Option<(Val, Val)>, escaped: bool)
      requires Valid()
      modifies this
      ensures Valid()
      ensures sent == if confirmed then Some((id, CompletePatch(today))) else None
      ensures !confirmed ==>
        !escaped && registros == old(registros) && error == old(error) && selectedRegistro == old(selectedRegistro)
      ensures confirmed ==> var outcome := if write.Threw? then write else Reload(reload);
        && (outcome.Returned? ==>
            registros == outcome.value && error == Null && !escaped
            && selectedRegistro == ClearIfSelected(old(selectedRegistro), id))
        && (outcome.Threw? ==>
            registros == old(registros) && selectedRegistro == old(selectedRegistro)
            && (escaped <==> Nullish(outcome.error))
            && error == (if escaped then Null else MessageOr(outcome.error, "Error al completar el mantenimiento").value))
      ensures productos == old(productos) && usuarios == old(usuarios) && loading == old(loading)
      ensures isCreating == old(isCreating) && isEditing == old(isEditing) && formData == old(formData)
    {
      sent := None;
      escaped := false;
      if confirmed {
        sent := Some((id, CompletePatch(today)));
        escaped := AfterWrite(id, write, reload, "Error al completar el mantenimiento");
      }
    }
  }
}
