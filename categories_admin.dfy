/** The data logic of pages/admin/GestionCategorias.jsx: the parent-name
    lookup of the table, the normalisation of list responses, the edit-form
    mapping, the submit validation and branch, the form resets, and which
    panels the page shows. Service replies and `confirm` answers are inputs. */
module CategoriesAdmin {
  import opened JsValue

  // ------------------------------------------------------------ the form

  /** A form object `{ nombre, descripcion, parent }`. */
  function CategoryForm(nombre: Val, descripcion: Val, parent: Val): (r: Val)
    ensures r.Obj? && Keys(r.fields) == ["nombre", "descripcion", "parent"]
  {
    Obj([Field("nombre", nombre), Field("descripcion", descripcion), Field("parent", parent)])
  }

  /** Each property of the form reads back what was put in. */
  lemma CategoryFormGet(nombre: Val, descripcion: Val, parent: Val)
    ensures var f := CategoryForm(nombre, descripcion, parent);
      Get(f, "nombre") == nombre && Get(f, "descripcion") == descripcion && Get(f, "parent") == parent
  {
    var fs := CategoryForm(nombre, descripcion, parent).fields;
    assert Keys(fs[..1]) == ["nombre"];
    LookupAt(fs, 1);
    assert Keys(fs[..2]) == ["nombre", "descripcion"];
    LookupAt(fs, 2);
  }

  /** The form every reset writes: three empty strings. */
  function EmptyForm(): Val {
    CategoryForm(Str(""), Str(""), Str(""))
  }

  /** `handleEditCategoria`'s form: `name` as `nombre`, `description || ''`
      as `descripcion`, `parent_id || ''` as `parent`. */
  function EditForm(categoria: Val): Val {
    CategoryForm(Get(categoria, "name"), Or(Get(categoria, "description"), Str("")),
                 Or(Get(categoria, "parent_id"), Str("")))
  }

  /** The edit form takes the name as it is, even a falsy one, and falls back
      to '' for a falsy description or parent id. */
  lemma EditFormMeaning(categoria: Val)
    ensures var f := EditForm(categoria);
      && Get(f, "nombre") == Get(categoria, "name")
      && (Truthy(Get(categoria, "description")) ==> Get(f, "descripcion") == Get(categoria, "description"))
      && (!Truthy(Get(categoria, "description")) ==> Get(f, "descripcion") == Str(""))
      && (Truthy(Get(categoria, "parent_id")) ==> Get(f, "parent") == Get(categoria, "parent_id"))
      && (!Truthy(Get(categoria, "parent_id")) ==> Get(f, "parent") == Str(""))
  {
    CategoryFormGet(Get(categoria, "name"), Or(Get(categoria, "description"), Str("")),
                    Or(Get(categoria, "parent_id"), Str("")));
  }

  // ------------------------------------------------------------ submit

  const NAME_REQUIRED := "El nombre de la categoría es requerido"
  const SAVE_FALLBACK := "Error al guardar la categoría"
  const LOAD_FAILED := "Error al cargar datos"
  const DELETE_FAILED := "Error al eliminar la categoría"

  /** Every character is white space or a line terminator. */
  predicate Blank(s: string) {
    s == [] || (IsJsSpace(s[0]) && Blank(s[1..]))
  }

  /** `!s.trim()` is exactly Blank(s). */
  lemma {:induction false} BlankIsTrimEmpty(s: string)
    ensures Blank(s) <==> Trim(s) == []
  {
    BlankAll(s);
    TrimEmptyIffBlank(s);
  }

  lemma {:induction false} BlankAll(s: string)
    ensures Blank(s) <==> forall i :: 0 <= i < |s| ==> IsJsSpace(s[i])
  {
    if s != [] {
      BlankAll(s[1..]);
      assert forall i :: 1 <= i < |s| ==> s[i] == s[1..][i - 1];
    }
  }

  /** `!formData.nombre.trim()`: whether the name is blank; calling `trim` on
      anything but a string throws (None). */
  function NameBlank(form: Val): (r: Option<bool>)
    ensures r.Some? <==> Get(form, "nombre").Str?
  {
    var nombre := Get(form, "nombre");
    if nombre.Str? then Some(Blank(nombre.s)) else None
  }

  /** A string name is refused exactly when its trimmed text is empty, that
      is when every character is white space or a line terminator. */
  lemma NameBlankMeaning(form: Val)
    requires Get(form, "nombre").Str?
    ensures var s := Get(form, "nombre").s;
      && (NameBlank(form) == Some(true) <==> Trim(s) == [])
      && (NameBlank(form) == Some(true) <==> forall i :: 0 <= i < |s| ==> IsJsSpace(s[i]))
  {
    BlankIsTrimEmpty(Get(form, "nombre").s);
    BlankAll(Get(form, "nombre").s);
  }

  /** The service call `handleSubmit` makes. */
  datatype Call = NoCall | Update(id: Val, data: Val) | Create(data: Val)

  /** The branch of `handleSubmit`: no call unless the name is a non-blank
      string; an update of the selected category while editing one; a
      creation otherwise. The whole form is sent either way. */
  function SubmitCall(form: Val, isEditing: bool, selected: Val): (c: Call)
    ensures c.NoCall? <==> NameBlank(form) != Some(false)
    ensures c.Update? <==> NameBlank(form) == Some(false) && isEditing && Truthy(selected)
    ensures c.Update? ==> c.id == Get(selected, "id") && c.data == form
    ensures c.Create? ==> c.data == form
  {
    if NameBlank(form) != Some(false) then NoCall
    else if isEditing && Truthy(selected) then Update(Get(selected, "id"), form)
    else Create(form)
  }

  /** The message `handleSubmit` shows when it makes no call: the required
      name message for a blank name, the caught TypeError's message when the
      name is not a string. */
  function RefusalMessage(form: Val): (r: Val)
    requires NameBlank(form) != Some(false)
    ensures NameBlank(form) == Some(true) ==> r == Str(NAME_REQUIRED)
    ensures NameBlank(form).None? ==> r == MessageOr(TypeErrorObj(), SAVE_FALLBACK).value
  {
    if NameBlank(form) == Some(true) then Str(NAME_REQUIRED)
    else MessageOr(TypeErrorObj(), SAVE_FALLBACK).value
  }

  /** A freshly opened creation form cannot be saved: its name is blank. */
  lemma EmptyFormRefused(isEditing: bool, selected: Val)
    ensures SubmitCall(EmptyForm(), isEditing, selected) == NoCall
    ensures RefusalMessage(EmptyForm()) == Str(NAME_REQUIRED)
  {
    CategoryFormGet(Str(""), Str(""), Str(""));
  }

  /** Saving an edit form unchanged updates the category it was loaded from,
      sending the mapped form, exactly when the category's name is a
      non-blank string. */
  lemma EditThenSubmit(categoria: Val)
    requires Truthy(categoria)
    ensures var name := Get(categoria, "name");
      SubmitCall(EditForm(categoria), true, categoria) ==
        if name.Str? && exists i :: 0 <= i < |name.s| && !IsJsSpace(name.s[i])
        then Update(Get(categoria, "id"), EditForm(categoria))
        else NoCall
  {
    EditFormMeaning(categoria);
    if Get(categoria, "name").Str? {
      BlankAll(Get(categoria, "name").s);
    }
  }

  // ------------------------------------------------------------ responses

  /** `Array.isArray(x) ? x : []`, the normalisation of the reloads. */
  function ArrayOrEmpty(v: Val): (r: Val)
    ensures r.Arr?
    ensures v.Arr? ==> r == v
    ensures !v.Arr? ==> r == Arr([])
  {
    if v.Arr? then v else Arr([])
  }

  /** What ends a `Promise.all` of the two list requests: the first rejection
      in argument order. */
  function PairFailure(all: Completion, principal: Completion): (r: Option<Val>)
    ensures r.None? <==> all.Returned? && principal.Returned?
    ensures all.Threw? ==> r == Some(all.error)
    ensures all.Returned? && principal.Threw? ==> r == Some(principal.error)
  {
    if all.Threw? then Some(all.error)
    else if principal.Threw? then Some(principal.error)
    else None
  }

  /** What ends a write followed by the reload: the write's rejection, else
      the reload's. */
  function WriteFailure(write: Completion, all: Completion, principal: Completion): (r: Option<Val>)
    ensures r.None? <==> write.Returned? && all.Returned? && principal.Returned?
    ensures write.Threw? ==> r == Some(write.error)
    ensures write.Returned? ==> r == PairFailure(all, principal)
  {
    if write.Threw? then Some(write.error) else PairFailure(all, principal)
  }

  /** The initial load succeeds when both requests return and neither reply
      is missing (reading `.results` of a missing reply throws). */
  predicate LoadSucceeds(all: Completion, principal: Completion) {
    all.Returned? && principal.Returned? && !Nullish(all.value) && !Nullish(principal.value)
  }

  /** After a successful initial load each list is the reply itself when it
      is an array, else its truthy `results` (whatever its type), else []. */
  lemma InitialLoadLists(all: Completion, principal: Completion)
    requires LoadSucceeds(all, principal)
    ensures NormalizeList(all.value).Some? && NormalizeList(principal.value).Some?
    ensures all.value.Arr? ==> NormalizeList(all.value).value == all.value
    ensures !all.value.Arr? && !Truthy(Get(all.value, "results")) ==> NormalizeList(all.value).value == Arr([])
    ensures principal.value.Arr? ==> NormalizeList(principal.value).value == principal.value
    ensures !principal.value.Arr? && !Truthy(Get(principal.value, "results")) ==>
      NormalizeList(principal.value).value == Arr([])
  {
  }

  /** The two normalisations agree on arrays; only the initial one accepts a
      paginated `{results}` reply, which a reload turns into []. */
  lemma ReloadDropsPagination(reply: Val)
    requires !reply.Arr? && Truthy(Get(reply, "results"))
    ensures ArrayOrEmpty(reply) == Arr([])
    ensures NormalizeList(reply) == Some(Get(reply, "results"))
  {
  }

  // ------------------------------------------------------------ the table

  /** `getParentName(parentId)`: '--' for a falsy id or no match, else the
      `name` of the first category with that id; the search throws (None) on
      a list that is not an array or on a missing element met before the
      match. */
  function ParentName(categorias: Val, parentId: Val): (r: Option<Val>)
    ensures !Truthy(parentId) ==> r == Some(Str("--"))
    ensures Truthy(parentId) ==> (r.None? <==> !categorias.Arr? || FindThrows(categorias.items, parentId))
    ensures Truthy(parentId) && r.Some? && FindIndex(categorias.items, HasId(parentId)).None? ==> r == Some(Str("--"))
    ensures Truthy(parentId) && r.Some? && FindIndex(categorias.items, HasId(parentId)).Some? ==>
      r == Some(Get(categorias.items[FindIndex(categorias.items, HasId(parentId)).value], "name"))
  {
    if !Truthy(parentId) then Some(Str("--"))
    else if !categorias.Arr? || FindThrows(categorias.items, parentId) then None
    else
      FindFirst(categorias.items, parentId);
      var parent := Find(categorias.items, HasId(parentId));
      Some(if Truthy(parent) then Get(parent, "name") else Str("--"))
  }

  /** A category whose parent is listed shows that parent's name. */
  lemma {:induction false} ParentNameFound(categorias: seq<Val>, parent: Val)
    requires Truthy(parent) && Truthy(Get(parent, "id")) && parent in categorias
    requires forall c :: c in categorias ==> Truthy(c)
    requires forall c :: c in categorias && StrictEq(Get(c, "id"), Get(parent, "id")) ==> c == parent
    ensures ParentName(Arr(categorias), Get(parent, "id")) == Some(Get(parent, "name"))
  {
    var id := Get(parent, "id");
    NoThrowOnRecords(categorias, id);
    var i :| 0 <= i < |categorias| && categorias[i] == parent;
    assert HasId(id)(categorias[i]);
    var r := FindIndex(categorias, HasId(id));
    assert r.Some?;
    assert HasId(id)(categorias[r.value]);
  }

  /** A search over a list of records never throws. */
  lemma {:induction false} NoThrowOnRecords(items: seq<Val>, id: Val)
    requires forall c :: c in items ==> Truthy(c)
    ensures !FindThrows(items, id)
  {
    if items != [] {
      assert items[0] in items;
      forall c | c in items[1..] ensures Truthy(c) {
        assert c in items;
      }
      NoThrowOnRecords(items[1..], id);
    }
  }

  // ------------------------------------------------------------ the screen

  /** What the page shows: the loading text, or the error banner (when the
      error is truthy), the list, the form with its title, and the details
      panel. */
  datatype View =
    | LoadingView
    | PageView(banner: Option<Val>, list: bool, formTitle: Option<string>, details: bool)

  /** The screen's state and its handlers. */
  class CategoriesScreen {
    var categorias: Val
    var categoriasPrincipales: Val
    var loading: bool
    var error: Val
    var selectedCategoria: Val
    var isCreating: bool
    var isEditing: bool
    var formData: Val

    /** The form is an object, creating and editing never coexist, and
        nothing is selected while creating. */
    predicate Valid()
      reads this
    {
      formData.Obj? && !(isCreating && isEditing) && (isCreating ==> selectedCategoria == Null)
    }

    constructor ()
      ensures Valid()
      ensures categorias == Arr([]) && categoriasPrincipales == Arr([])
      ensures loading && error == Null && selectedCategoria == Null && !isCreating && !isEditing
      ensures formData == EmptyForm()
    {
      categorias := Arr([]);
      categoriasPrincipales := Arr([]);
      loading := true;
      error := Null;
      selectedCategoria := Null;
      isCreating := false;
      isEditing := false;
      formData := EmptyForm();
    }

    /** The rendered page: the list alone or the form alone, and the details
        of a selection unless editing. */
    function Render(): (v: View)
      reads this
      ensures loading <==> v.LoadingView?
      ensures v.PageView? ==> (v.list <==> v.formTitle.None?)
      ensures v.PageView? ==> (v.banner.Some? <==> Truthy(error))
      ensures Valid() && v.PageView? && v.details ==> v.list
    {
      if loading then LoadingView
      else PageView(
        if Truthy(error) then Some(error) else None,
        !isCreating && !isEditing,
        if isCreating || isEditing then
          Some(if isEditing then "Editar Categoría" else "Crear Nueva Categoría")
        else None,
        Truthy(selectedCategoria) && !isEditing)
    }

    /** The initial `fetchData` with the replies of the two requests. Any
        failure shows a fixed message; the error is not cleared first. */
    method FetchData(all: Completion, principal: Completion)
      modifies this
      ensures !loading
      ensures LoadSucceeds(all, principal) ==>
        categorias == NormalizeList(all.value).value
        && categoriasPrincipales == NormalizeList(principal.value).value
        && error == old(error)
      ensures !LoadSucceeds(all, principal) ==>
        categorias == old(categorias) && categoriasPrincipales == old(categoriasPrincipales)
        && error == Str(LOAD_FAILED)
      ensures selectedCategoria == old(selectedCategoria) && isCreating == old(isCreating)
      ensures isEditing == old(isEditing) && formData == old(formData)
    {
      loading := true;
      if LoadSucceeds(all, principal) {
        categorias := NormalizeList(all.value).value;
        categoriasPrincipales := NormalizeList(principal.value).value;
      } else {
        error := Str(LOAD_FAILED);
      }
      loading := false;
    }

    /** The reset shared by `handleCreateCategoria`, `handleCancel` and a
        successful submit. */
    method CloseForm()
      modifies this
      ensures Valid()
      ensures !isCreating && !isEditing && selectedCategoria == Null && formData == EmptyForm()
      ensures categorias == old(categorias) && categoriasPrincipales == old(categoriasPrincipales)
      ensures loading == old(loading) && error == old(error)
    {
      isCreating := false;
      isEditing := false;
      selectedCategoria := Null;
      formData := EmptyForm();
    }

    /** `handleCreateCategoria` */
    method CreateCategoria()
      modifies this
      ensures Valid()
      ensures isCreating && !isEditing && selectedCategoria == Null && formData == EmptyForm()
      ensures categorias == old(categorias) && categoriasPrincipales == old(categoriasPrincipales)
      ensures loading == old(loading) && error == old(error)
    {
      CloseForm();
      isCreating := true;
    }

    /** `handleEditCategoria`: the flags and the selection are set before the
        category is read, so a missing category throws after them. */
    method EditCategoria(categoria: Val) returns (escaped: bool)
      requires Valid()
      modifies this
      ensures Valid()
      ensures isEditing && !isCreating && selectedCategoria == categoria
      ensures escaped <==> Nullish(categoria)
      ensures formData == if escaped then old(formData) else EditForm(categoria)
      ensures categorias == old(categorias) && categoriasPrincipales == old(categoriasPrincipales)
      ensures loading == old(loading) && error == old(error)
    {
      isEditing := true;
      isCreating := false;
      selectedCategoria := categoria;
      escaped := Nullish(categoria);
      if !escaped {
        formData := EditForm(categoria);
      }
    }

    /** The "Ver Detalles" button of a row, shown only with the list. */
    method ShowDetails(categoria: Val)
      requires Valid() && !isCreating && !isEditing
      modifies this
      ensures Valid()
      ensures selectedCategoria == categoria
      ensures categorias == old(categorias) && categoriasPrincipales == old(categoriasPrincipales)
      ensures loading == old(loading) && error == old(error)
      ensures isCreating == old(isCreating) && isEditing == old(isEditing) && formData == old(formData)
    {
      selectedCategoria := categoria;
    }

    /** The "Cerrar" button of the details panel. */
    method CloseDetails()
      requires Valid()
      modifies this
      ensures Valid()
      ensures selectedCategoria == Null
      ensures categorias == old(categorias) && categoriasPrincipales == old(categoriasPrincipales)
      ensures loading == old(loading) && error == old(error)
      ensures isCreating == old(isCreating) && isEditing == old(isEditing) && formData == old(formData)
    {
      selectedCategoria := Null;
    }

    /** `handleInputChange` */
    method InputChange(name: string, value: Val)
      requires Valid()
      modifies this
      ensures Valid()
      ensures formData == Set(old(formData), name, value)
      ensures categorias == old(categorias) && categoriasPrincipales == old(categoriasPrincipales)
      ensures loading == old(loading) && error == old(error) && selectedCategoria == old(selectedCategoria)
      ensures isCreating == old(isCreating) && isEditing == old(isEditing)
    {
      formData := Set(formData, name, value);
    }

    /** `handleSubmit` with the replies of the write and of the two reload
        requests. Returns the call made. A blank name and a name that is not
        a string make no call; after a call any rejection is caught and shown
        as `message || 'Error al guardar la categoría'` (a missing rejection
        value escapes the `catch`); on success both lists are reloaded as
        arrays and the form is reset. */
    method Submit(write: Completion, all: Completion, principal: Completion) returns (call: Call, escaped: bool)
      requires Valid()
      modifies this
      ensures Valid()
      ensures call == SubmitCall(old(formData), old(isEditing), old(selectedCategoria))
      ensures call.NoCall? ==>
        error == RefusalMessage(old(formData)) && !escaped
        && categorias == old(categorias) && categoriasPrincipales == old(categoriasPrincipales)
        && isCreating == old(isCreating) && isEditing == old(isEditing)
        && selectedCategoria == old(selectedCategoria) && formData == old(formData)
      ensures !call.NoCall? && WriteFailure(write, all, principal).None? ==>
        categorias == ArrayOrEmpty(all.value) && categoriasPrincipales == ArrayOrEmpty(principal.value)
        && error == Null && !escaped
        && !isCreating && !isEditing && selectedCategoria == Null && formData == EmptyForm()
      ensures !call.NoCall? && WriteFailure(write, all, principal).Some? ==>
        var failure := WriteFailure(write, all, principal).value;
        && categorias == old(categorias) && categoriasPrincipales == old(categoriasPrincipales)
        && (escaped <==> Nullish(failure))
        && error == (if escaped then Null else MessageOr(failure, SAVE_FALLBACK).value)
        && isCreating == old(isCreating) && isEditing == old(isEditing)
        && selectedCategoria == old(selectedCategoria) && formData == old(formData)
      ensures loading == old(loading)
    {
      error := Null;
      call := SubmitCall(formData, isEditing, selectedCategoria);
      if call.NoCall? {
        error := RefusalMessage(formData);
        return call, false;
      }
      escaped := Save(write, all, principal);
    }

    /** The part of `handleSubmit` after the call was made. */
    method Save(write: Completion, all: Completion, principal: Completion) returns (escaped: bool)
      requires Valid() && error == Null
      modifies this
      ensures Valid()
      ensures WriteFailure(write, all, principal).None? ==>
        categorias == ArrayOrEmpty(all.value) && categoriasPrincipales == ArrayOrEmpty(principal.value)
        && error == Null && !escaped
        && !isCreating && !isEditing && selectedCategoria == Null && formData == EmptyForm()
      ensures WriteFailure(write, all, principal).Some? ==>
        var failure := WriteFailure(write, all, principal).value;
        && categorias == old(categorias) && categoriasPrincipales == old(categoriasPrincipales)
        && (escaped <==> Nullish(failure))
        && error == (if escaped then Null else MessageOr(failure, SAVE_FALLBACK).value)
        && isCreating == old(isCreating) && isEditing == old(isEditing)
        && selectedCategoria == old(selectedCategoria) && formData == old(formData)
      ensures loading == old(loading)
    {
      var failure := WriteFailure(write, all, principal);
      if failure.Some? {
        var message := MessageOr(failure.value, SAVE_FALLBACK);
        if message.None? {
          return true;
        }
        error := message.value;
        return false;
      }
      categorias := ArrayOrEmpty(all.value);
      categoriasPrincipales := ArrayOrEmpty(principal.value);
      CloseForm();
      escaped := false;
    }

    /** `handleCancel` */
    method Cancel()
      modifies this
      ensures Valid()
      ensures !isCreating && !isEditing && selectedCategoria == Null && formData == EmptyForm()
      ensures categorias == old(categorias) && categoriasPrincipales == old(categoriasPrincipales)
      ensures loading == old(loading) && error == old(error)
    {
      CloseForm();
    }

    /** `handleDeleteCategoria(id)` with the user's answer to the
        confirmation: nothing without it; otherwise the delete and the reload,
        whose failure shows a fixed message. The selection is kept and the
        error is not cleared on success. Returns the id whose deletion was
        requested. */
    method DeleteCategoria(id: Val, confirmed: bool, write: Completion, all: Completion, principal: Completion)
      returns (requested: Option<Val>)
      requires Valid()
      modifies this
      ensures Valid()
      ensures requested == if confirmed then Some(id) else None
      ensures !confirmed || WriteFailure(write, all, principal).Some? ==>
        categorias == old(categorias) && categoriasPrincipales == old(categoriasPrincipales)
      ensures confirmed && WriteFailure(write, all, principal).None? ==>
        categorias == ArrayOrEmpty(all.value) && categoriasPrincipales == ArrayOrEmpty(principal.value)
      ensures error == if confirmed && WriteFailure(write, all, principal).Some? then Str(DELETE_FAILED) else old(error)
      ensures loading == old(loading) && selectedCategoria == old(selectedCategoria)
      ensures isCreating == old(isCreating) && isEditing == old(isEditing) && formData == old(formData)
    {
      requested := None;
      if confirmed {
        requested := Some(id);
        if WriteFailure(write, all, principal).Some? {
          error := Str(DELETE_FAILED);
        } else {
          categorias := ArrayOrEmpty(all.value);
          categoriasPrincipales := ArrayOrEmpty(principal.value);
        }
      }
    }
  }
}
