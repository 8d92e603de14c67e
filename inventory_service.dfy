/** The data-shaping parts of services/inventoryMovementService.js. Each
    request is an input: how the awaited axios call ended, holding the
    response object (with `status` and `data`) or the error it threw. */
module InventoryService {
  import opened JsValue
  import opened Endpoints

  // ------------------------------------------------------------ URL choice

  /** A default parameter `x = ''` replaces only undefined. */
  function DefaultEmpty(x: Val): Val {
    if x.Undefined? then Str("") else x
  }

  /** `URLSearchParams.toString()`: name=value pairs joined by "&" (the
      percent-encoding of names and values is not represented). */
  function QueryString(params: seq<(string, string)>): (q: string)
    ensures q == "" <==> params == []
  {
    if params == [] then ""
    else
      var head := params[0].0 + "=" + params[0].1;
      assert head[|params[0].0|] == '=';
      if |params| == 1 then head else head + "&" + QueryString(params[1..])
  }

  /** The URL `filterAndOrderInventoryMovements` requests: the base path when
      both arguments are falsy, FILTER_AND_ORDER of both otherwise. */
  function FilterAndOrderTarget(value: Val, order: Val): string {
    var v := DefaultEmpty(value);
    var o := DefaultEmpty(order);
    if Truthy(v) || Truthy(o) then MovementFilterAndOrder(v, o) else MOVEMENT_BASE
  }

  /** The URL-building steps of `filterAndOrderInventoryMovements`; the
      request itself is not part of this model. */
  method FilterAndOrderUrl(value: Val, order: Val) returns (url: string)
    ensures url == FilterAndOrderTarget(value, order)
  {
    var v := DefaultEmpty(value);
    var o := DefaultEmpty(order);
    url := MOVEMENT_BASE;
    var params: seq<(string, string)> := [];
    if Truthy(v) {
      params := params + [("search", ToJsString(v))];
    }
    if Truthy(o) {
      params := params + [("ordering", ToJsString(o))];
    }
    var queryString := QueryString(params);
    if queryString != "" {
      // FILTER_AND_ORDER is always defined, so the fallback `${BASE}?${queryString}` is never built.
      url := MovementFilterAndOrder(v, o);
    }
  }

  /** The base list is requested exactly when both arguments, after the
      defaults, are falsy. */
  lemma FilterAndOrderChoice(value: Val, order: Val)
    ensures FilterAndOrderTarget(value, order) == MOVEMENT_BASE <==>
      !Truthy(DefaultEmpty(value)) && !Truthy(DefaultEmpty(order))
  {
    var v := DefaultEmpty(value);
    var o := DefaultEmpty(order);
    if Truthy(v) || Truthy(o) {
      assert |MovementFilterAndOrder(v, o)| > |MOVEMENT_BASE|;
    }
  }

  /** Once one argument is given both parameters appear, the other one
      possibly empty; the default applies to undefined only, so null is
      written as the text "null". */
  lemma FilterAndOrderExamples()
    ensures FilterAndOrderTarget(Undefined, Str("-date")) == "/movements/?search=&ordering=-date/"
    ensures FilterAndOrderTarget(Null, Str("-date")) == "/movements/?search=null&ordering=-date/"
    ensures FilterAndOrderTarget(Str(""), Undefined) == "/movements/"
  {
  }

  // ------------------------------------------------------------ replies

  /** `getInventoryMovements`: an array body as is, else its truthy `results`,
      else an empty list. A body of null or undefined makes reading `results`
      throw, and the error is rethrown. */
  function GetInventoryMovements(reply: Completion): (r: Completion)
    ensures reply.Threw? ==> r == reply
    ensures r.Returned? ==>
      var d := Get(reply.value, "data");
      (d.Arr? && r.value == d)
      || (!d.Arr? && Truthy(Get(d, "results")) && r.value == Get(d, "results"))
      || (!d.Arr? && !Truthy(Get(d, "results")) && r.value == Arr([]))
    ensures reply.Returned? && r.Threw? <==> reply.Returned? && (Nullish(reply.value) || Nullish(Get(reply.value, "data")))
    ensures reply.Returned? && (Nullish(reply.value) || Nullish(Get(reply.value, "data"))) ==> r == Threw(TypeErrorObj())
  {
    if reply.Threw? then reply
    else if Nullish(reply.value) then Threw(TypeErrorObj())
    else
      var d := Get(reply.value, "data");
      if d.Arr? then Returned(d)
      else if Nullish(d) then Threw(TypeErrorObj())
      else Returned(Or(Get(d, "results"), Arr([])))
  }

  /** The `catch` blocks of create, update and delete: an error carrying a
      response becomes `new Error(data.message || fallback)`; any other error
      is rethrown unchanged. */
  function RethrownError(e: Val, fallback: string): (r: Val)
    ensures Truthy(Get(e, "response")) && !Nullish(Get(Get(e, "response"), "data")) ==>
      r == NewError(Or(Get(Get(Get(e, "response"), "data"), "message"), Str(fallback)))
    ensures !Nullish(e) && !Truthy(Get(e, "response")) ==> r == e
  {
    if Nullish(e) then TypeErrorObj()
    else if Truthy(Get(e, "response")) then
      var data := Get(Get(e, "response"), "data");
      if Nullish(data) then TypeErrorObj()
      else NewError(Or(Get(data, "message"), Str(fallback)))
    else e
  }

  const CREATE_FAILED := "Error al crear el movimiento de inventario"

  function UpdateFailed(id: Val): string { "Error al actualizar el movimiento " + ToJsString(id) }

  function DeleteFailed(id: Val): string { "Error al eliminar el movimiento " + ToJsString(id) }

  /** The body a successful call returns; reading `data` of a missing response throws. */
  function BodyOf(reply: Completion): Completion
    requires reply.Returned?
  {
    if Nullish(reply.value) then Threw(TypeErrorObj()) else Returned(Get(reply.value, "data"))
  }

  /** `createInventoryMovement` */
  function CreateInventoryMovement(reply: Completion): (r: Completion)
    ensures reply.Threw? ==> r == Threw(RethrownError(reply.error, CREATE_FAILED))
    ensures reply.Returned? && !Nullish(reply.value) ==> r == Returned(Get(reply.value, "data"))
    ensures reply.Returned? && Nullish(reply.value) ==> r == Threw(RethrownError(TypeErrorObj(), CREATE_FAILED))
  {
    var c := if reply.Threw? then reply else BodyOf(reply);
    if c.Threw? then Threw(RethrownError(c.error, CREATE_FAILED)) else c
  }

  /** `updateInventoryMovement(id, ...)` */
  function UpdateInventoryMovement(id: Val, reply: Completion): (r: Completion)
    ensures reply.Threw? ==> r == Threw(RethrownError(reply.error, UpdateFailed(id)))
    ensures reply.Returned? && !Nullish(reply.value) ==> r == Returned(Get(reply.value, "data"))
    ensures reply.Returned? && Nullish(reply.value) ==> r == Threw(RethrownError(TypeErrorObj(), UpdateFailed(id)))
  {
    var c := if reply.Threw? then reply else BodyOf(reply);
    if c.Threw? then Threw(RethrownError(c.error, UpdateFailed(id))) else c
  }

  /** `deleteInventoryMovement(id)`: nothing on status 204, otherwise the body
      when it is truthy, otherwise nothing. */
  function DeleteInventoryMovement(id: Val, reply: Completion): (r: Completion)
    ensures reply.Returned? && !Nullish(reply.value) && Get(reply.value, "status") == Num(204) ==> r == Returned(Undefined)
    ensures reply.Returned? && !Nullish(reply.value) && Get(reply.value, "status") != Num(204) ==>
      r == Returned(if Truthy(Get(reply.value, "data")) then Get(reply.value, "data") else Undefined)
    ensures reply.Returned? && Nullish(reply.value) ==> r == Threw(RethrownError(TypeErrorObj(), DeleteFailed(id)))
    ensures reply.Threw? ==> r == Threw(RethrownError(reply.error, DeleteFailed(id)))
  {
    if reply.Threw? then Threw(RethrownError(reply.error, DeleteFailed(id)))
    else if Nullish(reply.value) then Threw(RethrownError(TypeErrorObj(), DeleteFailed(id)))
    else
      var response := reply.value;
      if Get(response, "status") == Num(204) then Returned(Undefined)
      else if Truthy(Get(response, "data")) then Returned(Get(response, "data"))
      else Returned(Undefined)
  }

  /** A completed delete gives either nothing or a truthy body, and nothing
      exactly when the reply was a 204 or carried no truthy body. */
  lemma DeleteResultMeaning(id: Val, reply: Completion)
    requires reply.Returned? && !Nullish(reply.value)
    ensures var r := DeleteInventoryMovement(id, reply);
      && r.Returned?
      && (r.value == Undefined || (Truthy(r.value) && r.value == Get(reply.value, "data")))
      && (r.value == Undefined <==> Get(reply.value, "status") == Num(204) || !Truthy(Get(reply.value, "data")))
  {
  }

  /** The update and delete messages name the record: different id texts give
      different fallback messages. */
  lemma FallbacksNameTheId(a: Val, b: Val)
    requires ToJsString(a) != ToJsString(b)
    ensures UpdateFailed(a) != UpdateFailed(b) && DeleteFailed(a) != DeleteFailed(b)
  {
    var p := "Error al actualizar el movimiento ";
    var q := "Error al eliminar el movimiento ";
    assert UpdateFailed(a)[|p|..] == ToJsString(a) && UpdateFailed(b)[|p|..] == ToJsString(b);
    assert DeleteFailed(a)[|q|..] == ToJsString(a) && DeleteFailed(b)[|q|..] == ToJsString(b);
  }
}
