/** The path builders of services/config/endpoints.js. Each `${x}` in a
    template inserts String(x). */
module Endpoints {
  import opened JsValue

  const API_URL := "http://localhost:8000/api"

  // ------------------------------------------------------------ builders

  function UserUpdate(id: Val): string { "/users/" + ToJsString(id) + "/" }
  function UserDelete(id: Val): string { "/users/" + ToJsString(id) + "/" }
  function UserGetById(id: Val): string { "/users/" + ToJsString(id) + "/" }

  function CategoryDetail(id: Val): string { "/categories/" + ToJsString(id) + "/" }
  const CATEGORY_LIST_PRINCIPAL := "/categories/?parent=null"
  function CategoryListChildren(parentId: Val): string { "/categories/?parent=" + ToJsString(parentId) }
  function CategoryUpdateFull(id: Val): string { "/categories/" + ToJsString(id) + "/" }
  function CategoryUpdatePartial(id: Val): string { "/categories/" + ToJsString(id) + "/" }
  function CategoryMoveChild(id: Val): string { "/categories/" + ToJsString(id) + "/" }
  function CategorySubToParent(id: Val): string { "/categories/" + ToJsString(id) + "/" }
  function CategoryDelete(id: Val): string { "/categories/" + ToJsString(id) + "/" }
  function CategoryListProducts(id: Val): string { "/categories/" + ToJsString(id) + "/products/" }

  function SupplierDetail(id: Val): string { "/suppliers/" + ToJsString(id) + "/" }
  function SupplierUpdateFull(id: Val): string { "/suppliers/" + ToJsString(id) + "/" }
  function SupplierUpdatePartial(id: Val): string { "/suppliers/" + ToJsString(id) + "/" }
  function SupplierDelete(id: Val): string { "/suppliers/" + ToJsString(id) + "/" }
  function SupplierListProducts(id: Val): string { "/suppliers/" + ToJsString(id) + "/products/" }

  function ProductDetail(id: Val): string { "/products/" + ToJsString(id) + "/" }
  function ProductUpdateFull(id: Val): string { "/products/" + ToJsString(id) + "/" }
  function ProductUpdatePartial(id: Val): string { "/products/" + ToJsString(id) + "/" }
  function ProductDelete(id: Val): string { "/products/" + ToJsString(id) + "/" }
  function ProductListCategories(id: Val): string { "/products/" + ToJsString(id) + "/categories/" }
  function ProductListSuppliers(id: Val): string { "/products/" + ToJsString(id) + "/suppliers/" }
  function ProductUpdateStock(id: Val): string { "/products/" + ToJsString(id) + "/adjust_stock/" }

  const MOVEMENT_BASE := "/movements/"
  function MovementDetail(id: Val): string { "/movements/" + ToJsString(id) + "/" }
  function MovementUpdateFull(id: Val): string { "/movements/" + ToJsString(id) + "/" }
  function MovementUpdatePartial(id: Val): string { "/movements/" + ToJsString(id) + "/" }
  function MovementDelete(id: Val): string { "/movements/" + ToJsString(id) + "/" }
  function MovementFilterAndOrder(value: Val, order: Val): string {
    "/movements/?search=" + ToJsString(value) + "&ordering=" + ToJsString(order) + "/"
  }
  function MovementFilter(value: Val): string { "/movements/?search=" + ToJsString(value) + "/" }
  function MovementOrderByDate(order: Val): string { "/movements/?ordering=" + ToJsString(order) + "date/" }
  function MovementOrderByCant(order: Val): string { "/movements/?ordering=" + ToJsString(order) + "cant/" }

  function MaintenanceComplete(id: Val): string { "/maintenance/" + ToJsString(id) + "/complete/" }
  function MaintenanceUpdateFull(id: Val): string { "/maintenance/" + ToJsString(id) + "/" }
  function MaintenanceUpdatePartial(id: Val): string { "/maintenance/" + ToJsString(id) + "/" }
  function MaintenanceDelete(id: Val): string { "/maintenance/" + ToJsString(id) + "/" }

  // ------------------------------------------------------------ reference shape

  /** `/<resource>/<text>/`, the shape shared by the per-record builders. */
  function ItemPath(resource: string, text: string): string {
    "/" + resource + "/" + text + "/"
  }

  /** The per-user builders all give the user's item path. */
  lemma UserBuilders(id: Val)
    ensures UserUpdate(id) == UserDelete(id) == UserGetById(id) == ItemPath("users", ToJsString(id))
  {
    var t := ToJsString(id);
    assert UserUpdate(id) == "/users/" + t + "/";
  }

  /** The per-category builders other than the product listing all give the
      category's item path; the listing appends "products/" to it. */
  lemma CategoryBuilders(id: Val)
    ensures CategoryDetail(id) == CategoryUpdateFull(id) == CategoryUpdatePartial(id) == CategoryMoveChild(id)
         == CategorySubToParent(id) == CategoryDelete(id) == ItemPath("categories", ToJsString(id))
    ensures CategoryListProducts(id) == ItemPath("categories", ToJsString(id)) + "products/"
  {
    var t := ToJsString(id);
    assert CategoryDetail(id) == "/categories/" + t + "/";
    assert CategoryListProducts(id) == "/categories/" + t + "/products/";
  }

  /** Likewise for suppliers. */
  lemma SupplierBuilders(id: Val)
    ensures SupplierDetail(id) == SupplierUpdateFull(id) == SupplierUpdatePartial(id)
         == SupplierDelete(id) == ItemPath("suppliers", ToJsString(id))
    ensures SupplierListProducts(id) == ItemPath("suppliers", ToJsString(id)) + "products/"
  {
    var t := ToJsString(id);
    assert SupplierDetail(id) == "/suppliers/" + t + "/";
    assert SupplierListProducts(id) == "/suppliers/" + t + "/products/";
  }

  /** Likewise for products ... */
  lemma ProductBuilders(id: Val)
    ensures ProductDetail(id) == ProductUpdateFull(id) == ProductUpdatePartial(id)
         == ProductDelete(id) == ItemPath("products", ToJsString(id))
  {
    var t := ToJsString(id);
    assert ProductDetail(id) == "/products/" + t + "/";
  }

  /** ... whose three suffix builders append their suffix to the item path. */
  lemma ProductSuffixBuilders(id: Val)
    ensures ProductListCategories(id) == ItemPath("products", ToJsString(id)) + "categories/"
    ensures ProductListSuppliers(id) == ItemPath("products", ToJsString(id)) + "suppliers/"
    ensures ProductUpdateStock(id) == ItemPath("products", ToJsString(id)) + "adjust_stock/"
  {
    var t := ToJsString(id);
    assert "/categories/" == "/" + "categories/";
    SuffixPath("/products/", t, "categories/");
    assert "/suppliers/" == "/" + "suppliers/";
    SuffixPath("/products/", t, "suppliers/");
    assert "/adjust_stock/" == "/" + "adjust_stock/";
    SuffixPath("/products/", t, "adjust_stock/");
    assert "/products/" == "/" + "products" + "/";
  }

  /** Re-bracketing a path with a suffix. */
  lemma SuffixPath(head: string, t: string, suffix: string)
    ensures head + t + ("/" + suffix) == (head + t + "/") + suffix
  {
  }

  /** Likewise for inventory movements. */
  lemma MovementBuilders(id: Val)
    ensures MovementDetail(id) == MovementUpdateFull(id) == MovementUpdatePartial(id)
         == MovementDelete(id) == ItemPath("movements", ToJsString(id))
  {
    var t := ToJsString(id);
    assert MovementDetail(id) == "/movements/" + t + "/";
  }

  /** Likewise for maintenance records; completing appends "complete/". */
  lemma MaintenanceBuilders(id: Val)
    ensures MaintenanceUpdateFull(id) == MaintenanceUpdatePartial(id) == MaintenanceDelete(id)
         == ItemPath("maintenance", ToJsString(id))
    ensures MaintenanceComplete(id) == ItemPath("maintenance", ToJsString(id)) + "complete/"
  {
    var t := ToJsString(id);
    var prefix := "/maintenance/" + t;
    assert "/" + "maintenance" + "/" == "/maintenance/";
    assert ItemPath("maintenance", t) == prefix + "/";
    assert "/" + "complete/" == "/complete/";
    assert (prefix + "/") + "complete/" == prefix + "/complete/";
  }

  /** The id's text can be read back from an item path: two texts give the
      same path only when they are equal. */
  lemma ItemPathInjective(resource: string, x: string, y: string)
    ensures ItemPath(resource, x) == ItemPath(resource, y) <==> x == y
  {
    var p := "/" + resource + "/";
    if ItemPath(resource, x) == ItemPath(resource, y) {
      assert ItemPath(resource, x) == p + x + "/";
      assert ItemPath(resource, y) == p + y + "/";
      assert x == (p + x + "/")[|p|..|p| + |x|];
      assert y == (p + y + "/")[|p|..|p| + |y|];
    }
  }

  /** A server reading the children listing receives the parent's text as
      `parent` (unencoded, so a text with "&" is cut short); a null parent
      gives exactly the principal listing. */
  lemma ChildrenListing(parentId: Val)
    ensures '&' !in ToJsString(parentId) ==>
      QueryParam(CategoryListChildren(parentId), "parent") == Some(ToJsString(parentId))
    ensures CategoryListChildren(Null) == CATEGORY_LIST_PRINCIPAL
  {
    var t := ToJsString(parentId);
    if '&' !in t {
      assert CategoryListChildren(parentId) == "/categories/" + "?" + ("parent" + "=" + t);
      QueryAfter("/categories/", "parent" + "=" + t);
      OneParam("parent", t);
    }
  }

  /** A server reading a sort URL receives as `ordering` the direction prefix
      directly followed by the field name and a trailing slash. */
  lemma OrderBuilders(order: Val)
    ensures '&' !in ToJsString(order) ==>
      QueryParam(MovementOrderByDate(order), "ordering") == Some(ToJsString(order) + "date/")
    ensures '&' !in ToJsString(order) ==>
      QueryParam(MovementOrderByCant(order), "ordering") == Some(ToJsString(order) + "cant/")
  {
    var t := ToJsString(order);
    if '&' !in t {
      OrderParam(t, "date/");
      OrderParam(t, "cant/");
    }
  }

  /** The descending and ascending prefixes as written in the screens. */
  lemma OrderExamples()
    ensures MovementOrderByDate(Str("-")) == "/movements/?ordering=-date/"
    ensures MovementOrderByCant(Str("-")) == "/movements/?ordering=-cant/"
    ensures MovementOrderByDate(Str("")) == "/movements/?ordering=date/"
  {
  }

  lemma OrderParam(t: string, field: string)
    requires '&' !in t && '&' !in field
    ensures QueryParam("/movements/?ordering=" + t + field, "ordering") == Some(t + field)
  {
    var v := t + field;
    assert forall j :: 0 <= j < |v| ==> v[j] in t || v[j] in field;
    assert "/movements/?ordering=" + t + field == "/movements/" + "?" + ("ordering" + "=" + v);
    QueryAfter("/movements/", "ordering" + "=" + v);
    OneParam("ordering", v);
  }

  // ------------------------------------------------------------ query strings

  /** Index of the first `c` in `s`, or |s| when there is none. */
  function IndexOf(s: string, c: char): (i: nat)
    ensures i <= |s|
    ensures i < |s| ==> s[i] == c
    ensures forall j :: 0 <= j < i ==> s[j] != c
  {
    if s == [] || s[0] == c then 0 else 1 + IndexOf(s[1..], c)
  }

  /** `s.split(c)` */
  function Split(s: string, c: char): (parts: seq<string>)
    ensures |parts| >= 1
    decreases |s|
  {
    var i := IndexOf(s, c);
    if i == |s| then [s] else [s[..i]] + Split(s[i + 1..], c)
  }

  /** The text after the first "?" of a URL. */
  function QueryOf(url: string): string {
    var i := IndexOf(url, '?');
    if i == |url| then "" else url[i + 1..]
  }

  /** The raw (undecoded) value of the first parameter called `name` in a query. */
  function ParamIn(params: seq<string>, name: string): Option<string> {
    if params == [] then None
    else
      var p := params[0];
      var i := IndexOf(p, '=');
      if p[..i] == name then Some(if i == |p| then "" else p[i + 1..])
      else ParamIn(params[1..], name)
  }

  /** What a server reading the URL receives for parameter `name`. */
  function QueryParam(url: string, name: string): Option<string> {
    ParamIn(Split(QueryOf(url), '&'), name)
  }

  lemma SplitAt(a: string, b: string, c: char)
    requires c !in a
    ensures Split(a + [c] + b, c) == [a] + Split(b, c)
  {
    var s := a + [c] + b;
    assert s[|a|] == c;
    assert forall j :: 0 <= j < |a| ==> s[j] == a[j];
    assert IndexOf(s, c) == |a|;
    assert s[..|a|] == a;
    assert s[|a| + 1..] == b;
  }

  lemma SplitNone(a: string, c: char)
    requires c !in a
    ensures Split(a, c) == [a]
  {
  }

  lemma IndexAfterName(name: string, v: string)
    requires '=' !in name
    ensures var p := name + "=" + v; IndexOf(p, '=') == |name| && p[..|name|] == name && p[|name| + 1..] == v
  {
    var p := name + "=" + v;
    assert p[|name|] == '=';
    assert forall j :: 0 <= j < |name| ==> p[j] == name[j];
  }

  lemma QueryAfter(base: string, q: string)
    requires '?' !in base
    ensures QueryOf(base + "?" + q) == q
  {
    var url := base + "?" + q;
    assert url[|base|] == '?';
    assert forall j :: 0 <= j < |base| ==> url[j] == base[j];
    assert IndexOf(url, '?') == |base|;
    assert url[|base| + 1..] == q;
  }

  /** A query of one name=value parameter gives the value back. */
  lemma OneParam(name: string, v: string)
    requires '&' !in name && '=' !in name && '&' !in v
    ensures ParamIn(Split(name + "=" + v, '&'), name) == Some(v)
  {
    NoAmpInParam(name, v);
    SplitNone(name + "=" + v, '&');
    IndexAfterName(name, v);
  }

  lemma QueryAfterBase(q: string)
    ensures QueryOf("/movements/?" + q) == q
  {
    var url := "/movements/?" + q;
    assert url[11] == '?';
    assert forall j :: 0 <= j < 11 ==> url[j] == "/movements/"[j];
    assert IndexOf(url, '?') == 11;
    assert url[12..] == q;
  }

  /** A name=value parameter whose value has no "&" stays one piece. */
  lemma NoAmpInParam(name: string, v: string)
    requires '&' !in name && '&' !in v
    ensures '&' !in name + "=" + v
  {
    var p := name + "=" + v;
    assert forall j :: 0 <= j < |p| ==> p[j] == if j < |name| then name[j] else if j == |name| then '=' else v[j - |name| - 1];
  }

  /** The two parameters of a FILTER_AND_ORDER query, read back by name. */
  lemma TwoParams(v: string, w: string)
    requires '&' !in v && '&' !in w
    ensures var q := "search=" + v + "&ordering=" + w;
      ParamIn(Split(q, '&'), "search") == Some(v) && ParamIn(Split(q, '&'), "ordering") == Some(w)
  {
    var first := "search" + "=" + v;
    var second := "ordering" + "=" + w;
    NoAmpInParam("search", v);
    NoAmpInParam("ordering", w);
    assert "search=" + v + "&ordering=" + w == first + ['&'] + second;
    SplitAt(first, second, '&');
    SplitNone(second, '&');
    IndexAfterName("search", v);
    IndexAfterName("ordering", w);
  }

  /** What the server receives from FILTER_AND_ORDER: both parameters are
      always present, the search text arrives as written, and the ordering
      arrives with the builder's trailing "/" attached. Values are inserted
      without encoding, so the statement needs them free of "&". */
  lemma FilterAndOrderParams(value: Val, order: Val)
    requires '&' !in ToJsString(value) && '&' !in ToJsString(order)
    ensures QueryParam(MovementFilterAndOrder(value, order), "search") == Some(ToJsString(value))
    ensures QueryParam(MovementFilterAndOrder(value, order), "ordering") == Some(ToJsString(order) + "/")
  {
    var v := ToJsString(value);
    var w := ToJsString(order) + "/";
    var q := "search=" + v + "&ordering=" + w;
    assert MovementFilterAndOrder(value, order) == "/movements/?" + q;
    QueryAfterBase(q);
    TwoParams(v, w);
  }

  /** Because nothing is encoded, different (search, ordering) pairs can build
      the same URL. */
  lemma FilterAndOrderNotInjective()
    ensures MovementFilterAndOrder(Str("a&ordering=b"), Str("c"))
         == MovementFilterAndOrder(Str("a"), Str("b&ordering=c"))
  {
  }
}
