/** services/productService.js: the multipart bodies built for creating and
    updating a product, and the message chosen when the list request fails. */
module ProductService {
  import opened JsValue
  import opened Json
  import opened Endpoints

  /** A FormData body: its entries in append order. Values appended are
      converted to text (Blob and File values are not represented). */
  class FormData {
    var entries: seq<(string, string)>

    constructor ()
      ensures entries == []
    {
      entries := [];
    }

    /** `formData.append(name, value)` */
    method Append(name: string, value: Val)
      modifies this
      ensures entries == old(entries) + [(name, ToJsString(value))]
    {
      entries := entries + [(name, ToJsString(value))];
    }
  }

  // ------------------------------------------------------------ the two encodings

  /** The value `createProduct` appends: booleans as String(b), the rest as they are. */
  function CreateValue(v: Val): Val {
    if v.Bool? then Str(ToJsString(v)) else v
  }

  /** The entries `createProduct` appends for the properties `fs`, in order:
      null and undefined values are skipped. */
  function CreateEntries(fs: seq<Field>): (es: seq<(string, string)>)
    ensures |es| <= |fs|
  {
    if fs == [] then []
    else
      var f := fs[|fs| - 1];
      CreateEntries(fs[..|fs| - 1])
      + (if Nullish(f.val) then [] else [(f.key, ToJsString(CreateValue(f.val)))])
  }

  /** The entries `updateProduct` appends: every property, null and undefined
      included (as the texts "null" and "undefined"). */
  function UpdateEntries(fs: seq<Field>): (es: seq<(string, string)>)
    ensures |es| == |fs|
    ensures forall j :: 0 <= j < |fs| ==> es[j] == (fs[j].key, ToJsString(fs[j].val))
  {
    if fs == [] then [] else UpdateEntries(fs[..|fs| - 1]) + [(fs[|fs| - 1].key, ToJsString(fs[|fs| - 1].val))]
  }

  /** The properties whose value is neither null nor undefined, in order. */
  function DropNullish(fs: seq<Field>): (r: seq<Field>)
    ensures |r| <= |fs|
    ensures forall f :: f in r ==> f in fs && !Nullish(f.val)
  {
    if fs == [] then []
    else DropNullish(fs[..|fs| - 1]) + (if Nullish(fs[|fs| - 1].val) then [] else [fs[|fs| - 1]])
  }

  /** The create body is the update body of the non-null properties: converting
      booleans first gives the same text FormData would give. */
  lemma {:induction false} CreateIsUpdateOfPresent(fs: seq<Field>)
    ensures CreateEntries(fs) == UpdateEntries(DropNullish(fs))
  {
    if fs != [] {
      var init := fs[..|fs| - 1];
      var f := fs[|fs| - 1];
      CreateIsUpdateOfPresent(init);
      var d := DropNullish(init);
      if !Nullish(f.val) {
        assert ToJsString(CreateValue(f.val)) == ToJsString(f.val);
        assert DropNullish(fs) == d + [f];
        assert (d + [f])[..|d + [f]| - 1] == d;
      }
    }
  }

  /** A property is sent by `createProduct` exactly when its value is neither
      null nor undefined; a boolean is sent as "true" or "false". */
  lemma {:induction false} CreateEntryFor(fs: seq<Field>, j: nat)
    requires j < |fs|
    ensures !Nullish(fs[j].val) ==> (fs[j].key, ToJsString(fs[j].val)) in CreateEntries(fs)
    ensures fs[j].val.Bool? ==> (fs[j].key, if fs[j].val.b then "true" else "false") in CreateEntries(fs)
    ensures forall e :: e in CreateEntries(fs) ==> exists i :: 0 <= i < |fs| && e == (fs[i].key, ToJsString(fs[i].val)) && !Nullish(fs[i].val)
  {
    var init := fs[..|fs| - 1];
    var f := fs[|fs| - 1];
    var tail := if Nullish(f.val) then [] else [(f.key, ToJsString(CreateValue(f.val)))];
    assert CreateEntries(fs) == CreateEntries(init) + tail;
    if j < |fs| - 1 {
      CreateEntryFor(init, j);
      assert init[j] == fs[j];
    } else {
      CreateEntriesOrigin(init);
    }
    CreateEntriesOrigin(fs);
  }

  lemma {:induction false} CreateEntriesOrigin(fs: seq<Field>)
    ensures forall e :: e in CreateEntries(fs) ==> exists i :: 0 <= i < |fs| && e == (fs[i].key, ToJsString(fs[i].val)) && !Nullish(fs[i].val)
  {
    if fs != [] {
      var init := fs[..|fs| - 1];
      CreateEntriesOrigin(init);
      forall e | e in CreateEntries(fs)
        ensures exists i :: 0 <= i < |fs| && e == (fs[i].key, ToJsString(fs[i].val)) && !Nullish(fs[i].val)
      {
        if e in CreateEntries(init) {
          var i :| 0 <= i < |init| && e == (init[i].key, ToJsString(init[i].val)) && !Nullish(init[i].val);
          assert fs[i] == init[i];
        } else {
          assert e == (fs[|fs| - 1].key, ToJsString(fs[|fs| - 1].val));
        }
      }
    }
  }

  // ------------------------------------------------------------ the loops

  /** The `forEach` of `createProduct` over the properties of `productData`. */
  method CreateProductForm(fs: seq<Field>) returns (form: FormData)
    ensures fresh(form)
    ensures form.entries == CreateEntries(fs)
  {
    form := new FormData();
    var i := 0;
    while i < |fs|
      invariant 0 <= i <= |fs|
      invariant form.entries == CreateEntries(fs[..i])
      modifies form
    {
      var f := fs[i];
      assert fs[..i + 1][..i] == fs[..i];
      if !Nullish(f.val) {
        var value := if f.val.Bool? then Str(ToJsString(f.val)) else f.val;
        form.Append(f.key, value);
      }
      i := i + 1;
    }
    assert fs[..i] == fs;
  }

  /** The `forEach` of `updateProduct`. */
  method UpdateProductForm(fs: seq<Field>) returns (form: FormData)
    ensures fresh(form)
    ensures form.entries == UpdateEntries(fs)
  {
    form := new FormData();
    var i := 0;
    while i < |fs|
      invariant 0 <= i <= |fs|
      invariant form.entries == UpdateEntries(fs[..i])
      modifies form
    {
      assert fs[..i + 1][..i] == fs[..i];
      form.Append(fs[i].key, fs[i].val);
      i := i + 1;
    }
    assert fs[..i] == fs;
  }

  // ------------------------------------------------------------ error messages

  /** The three texts of one service's error mapping. */
  datatype ErrorTexts = ErrorTexts(unknown: string, noResponse: string, setup: string)

  const GET_TEXTS := ErrorTexts(
    "Error desconocido al obtener productos",
    "No se recibió respuesta del servidor al obtener productos.",
    "Error al configurar la solicitud para obtener productos.")

  const CREATE_TEXTS := ErrorTexts(
    "Error desconocido al crear producto",
    "No se recibió respuesta del servidor al crear producto.",
    "Error al configurar la solicitud para crear producto.")

  /** The error thrown from the `catch` block for a caught `e`: the server's
      `detail`, else its `message`, else the body's JSON text; a fixed text
      when no response arrived; the setup text followed by `e.message`
      otherwise. Reading a property of a missing error or body throws. */
  function ServiceError(e: Val, texts: ErrorTexts): Val {
    if Nullish(e) then TypeErrorObj()
    else if Truthy(Get(e, "response")) then
      var data := Get(Get(e, "response"), "data");
      if Nullish(data) then TypeErrorObj()
      else NewError(Or(Or(Or(Get(data, "detail"), Get(data, "message")), Str(Stringify(data))), Str(texts.unknown)))
    else if Truthy(Get(e, "request")) then NewError(Str(texts.noResponse))
    else NewError(Str(texts.setup + ToJsString(Get(e, "message"))))
  }

  /** With a server body the message is `detail`, else `message`, else the JSON
      text of the body, which is never empty: the "unknown" text is never used. */
  lemma ServerMessageChoice(e: Val, texts: ErrorTexts)
    requires Truthy(Get(e, "response")) && !Nullish(Get(Get(e, "response"), "data"))
    ensures var data := Get(Get(e, "response"), "data");
      ServiceError(e, texts) == NewError(
        if Truthy(Get(data, "detail")) then Get(data, "detail")
        else if Truthy(Get(data, "message")) then Get(data, "message")
        else Str(Stringify(data)))
  {
    var data := Get(Get(e, "response"), "data");
    EncNotEmpty(Norm(data));
  }

  lemma EncNotEmpty(v: Val)
    ensures Enc(v) != ""
  {
  }

  /** `getProducts`: the body on success; on failure the mapped error. A
      missing response object fails inside the `try`, so its TypeError is
      mapped as well. */
  function GetProducts(reply: Completion): (r: Completion)
    ensures reply.Threw? ==> r == Threw(ServiceError(reply.error, GET_TEXTS))
    ensures reply.Returned? && !Nullish(reply.value) ==> r == Returned(Get(reply.value, "data"))
    ensures reply.Returned? && Nullish(reply.value) ==> r == Threw(ServiceError(TypeErrorObj(), GET_TEXTS))
  {
    if reply.Threw? then Threw(ServiceError(reply.error, GET_TEXTS))
    else if Nullish(reply.value) then Threw(ServiceError(TypeErrorObj(), GET_TEXTS))
    else Returned(Get(reply.value, "data"))
  }

  /** `createProduct(productData)`: the body posted (absent when reading the
      keys of a missing argument throws before the request) and how the call
      ends. Failures of the request, including a missing response object, are
      mapped by the `catch` block. */
  method CreateProduct(productData: Val, reply: Completion) returns (c: Completion, body: Option<seq<(string, string)>>)
    ensures Nullish(productData) ==> c == Threw(TypeErrorObj()) && body.None?
    ensures !Nullish(productData) ==> body == Some(CreateEntries(Spread(productData)))
    ensures !Nullish(productData) && reply.Threw? ==> c == Threw(ServiceError(reply.error, CREATE_TEXTS))
    ensures !Nullish(productData) && reply.Returned? && Nullish(reply.value) ==> c == Threw(ServiceError(TypeErrorObj(), CREATE_TEXTS))
    ensures !Nullish(productData) && reply.Returned? && !Nullish(reply.value) ==> c == Returned(Get(reply.value, "data"))
  {
    if Nullish(productData) {
      return Threw(TypeErrorObj()), None;
    }
    var form := CreateProductForm(Spread(productData));
    body := Some(form.entries);
    if reply.Threw? {
      c := Threw(ServiceError(reply.error, CREATE_TEXTS));
    } else if Nullish(reply.value) {
      c := Threw(ServiceError(TypeErrorObj(), CREATE_TEXTS));
    } else {
      c := Returned(Get(reply.value, "data"));
    }
  }

  /** `updateProduct(id, productData)`: the path and body of the PATCH and how
      the call ends; there is no `catch`, so a failed request propagates as is. */
  method UpdateProduct(id: Val, productData: Val, reply: Completion)
    returns (c: Completion, path: string, body: Option<seq<(string, string)>>)
    ensures path == ProductDetail(id)
    ensures Nullish(productData) ==> c == Threw(TypeErrorObj()) && body.None?
    ensures !Nullish(productData) ==> body == Some(UpdateEntries(Spread(productData)))
    ensures !Nullish(productData) && reply.Threw? ==> c == reply
    ensures !Nullish(productData) && reply.Returned? && Nullish(reply.value) ==> c == Threw(TypeErrorObj())
    ensures !Nullish(productData) && reply.Returned? && !Nullish(reply.value) ==> c == Returned(Get(reply.value, "data"))
  {
    path := ProductDetail(id);
    if Nullish(productData) {
      return Threw(TypeErrorObj()), path, None;
    }
    var form := UpdateProductForm(Spread(productData));
    body := Some(form.entries);
    if reply.Threw? {
      c := reply;
    } else if Nullish(reply.value) {
      c := Threw(TypeErrorObj());
    } else {
      c := Returned(Get(reply.value, "data"));
    }
  }
}
