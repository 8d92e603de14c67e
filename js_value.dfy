/** JavaScript values as the client manipulates them: primitives, arrays and
    plain objects whose own properties keep their insertion order. */
module JsValue {
  import opened Decimal

  datatype Option<T> = None | Some(value: T)

  /** A JavaScript value. Numbers are integral (no fractions, NaN or -0);
      functions, symbols and object identity are not represented. */
  datatype Val =
    | Undefined
    | Null
    | Bool(b: bool)
    | Num(n: int)
    | Str(s: string)
    | Arr(items: seq<Val>)
    | Obj(fields: seq<Field>)

  /** One own property of a plain object. */
  datatype Field = Field(key: string, val: Val)

  /** ToBoolean: the test behind `if (v)`, `!v`, `a || b` and `c ? x : y`. */
  predicate Truthy(v: Val) {
    match v
    case Undefined => false
    case Null => false
    case Bool(b) => b
    case Num(n) => n != 0
    case Str(s) => s != ""
    case Arr(_) => true
    case Obj(_) => true
  }

  /** `a || b`: the first operand when it is truthy, otherwise the second. */
  function Or(a: Val, b: Val): (r: Val)
    ensures Truthy(a) ==> r == a
    ensures !Truthy(a) ==> r == b
  {
    if Truthy(a) then a else b
  }

  /** `a === b` on the values this model holds (ids, role names, statuses).
      Objects are compared by content, standing for the identity JavaScript uses. */
  predicate StrictEq(a: Val, b: Val) {
    a == b
  }

  /** `v == null`: the values whose property reads throw a TypeError. */
  predicate Nullish(v: Val) {
    v.Undefined? || v.Null?
  }

  /** How a call ended: it returned (an awaited promise resolved) with a value,
      or it threw (the promise rejected) with one. */
  datatype Completion = Returned(value: Val) | Threw(error: Val)

  // ---------------------------------------------------------------- objects

  /** Own property names, in order. */
  function Keys(fs: seq<Field>): (ks: seq<string>)
    ensures |ks| == |fs|
    ensures forall i :: 0 <= i < |fs| ==> ks[i] == fs[i].key
  {
    if fs == [] then [] else [fs[0].key] + Keys(fs[1..])
  }

  /** No property name occurs twice: every real JavaScript object. */
  predicate UniqueKeys(fs: seq<Field>) {
    fs == [] || (fs[0].key !in Keys(fs[1..]) && UniqueKeys(fs[1..]))
  }

  /** Value of the property `k`, `undefined` when there is none. */
  function Lookup(fs: seq<Field>, k: string): (r: Val)
    ensures k !in Keys(fs) ==> r == Undefined
  {
    if fs == [] then Undefined
    else if fs[0].key == k then fs[0].val
    else Lookup(fs[1..], k)
  }

  /** `v.k` on a value that is not null or undefined. A primitive or an array
      has none of the named properties this client reads, so it gives undefined. */
  function Get(v: Val, k: string): (r: Val)
    ensures !v.Obj? ==> r == Undefined
  {
    if v.Obj? then Lookup(v.fields, k) else Undefined
  }

  /** Own properties copied by `{...v}`. Spreading an array or a string, which
      copies indexed properties, is not represented. */
  function Spread(v: Val): seq<Field> {
    if v.Obj? then v.fields else []
  }

  /** `{...fs, [k]: x}` on a property list: overwrite `k` where it stands,
      or add it at the end. */
  function Put(fs: seq<Field>, k: string, x: Val): (r: seq<Field>)
    ensures Keys(r) == if k in Keys(fs) then Keys(fs) else Keys(fs) + [k]
  {
    if fs == [] then [Field(k, x)]
    else if fs[0].key == k then [Field(k, x)] + fs[1..]
    else [fs[0]] + Put(fs[1..], k, x)
  }

  /** `{...v, [k]: x}` */
  function Set(v: Val, k: string, x: Val): Val {
    Obj(Put(Spread(v), k, x))
  }

  /** `{...base, ...over}` on property lists. */
  function Merge(base: seq<Field>, over: seq<Field>): seq<Field>
    decreases |over|
  {
    if over == [] then base else Merge(Put(base, over[0].key, over[0].val), over[1..])
  }

  lemma {:induction false} LookupPutSame(fs: seq<Field>, k: string, x: Val)
    ensures Lookup(Put(fs, k, x), k) == x
  {
    if fs != [] && fs[0].key != k {
      LookupPutSame(fs[1..], k, x);
    }
  }

  lemma {:induction false} LookupPutOther(fs: seq<Field>, k: string, x: Val, j: string)
    requires j != k
    ensures Lookup(Put(fs, k, x), j) == Lookup(fs, j)
  {
    if fs != [] && fs[0].key != k && fs[0].key != j {
      LookupPutOther(fs[1..], k, x, j);
    }
  }

  lemma {:induction false} PutKeepsUnique(fs: seq<Field>, k: string, x: Val)
    requires UniqueKeys(fs)
    ensures UniqueKeys(Put(fs, k, x))
  {
    if fs != [] && fs[0].key != k {
      PutKeepsUnique(fs[1..], k, x);
      assert Put(fs, k, x)[1..] == Put(fs[1..], k, x);
    } else if fs != [] {
      assert Put(fs, k, x)[1..] == fs[1..];
    }
  }

  /** Reading a property of `{...v, [k]: x}`. */
  lemma GetSet(v: Val, k: string, x: Val, j: string)
    ensures Get(Set(v, k, x), j) == if j == k then x else Get(v, j)
  {
    if j == k {
      LookupPutSame(Spread(v), k, x);
    } else {
      LookupPutOther(Spread(v), k, x, j);
    }
  }

  /** In `{...base, ...over}` the properties of `over` win, the others come from `base`. */
  lemma {:induction false} LookupMerge(base: seq<Field>, over: seq<Field>, j: string)
    requires UniqueKeys(over)
    ensures Lookup(Merge(base, over), j) == if j in Keys(over) then Lookup(over, j) else Lookup(base, j)
    decreases |over|
  {
    if over != [] {
      var f := over[0];
      LookupMerge(Put(base, f.key, f.val), over[1..], j);
      if j == f.key {
        LookupPutSame(base, f.key, f.val);
      } else {
        LookupPutOther(base, f.key, f.val, j);
      }
    }
  }

  /** The first property of a given name is the one read. */
  lemma {:induction false} LookupAt(fs: seq<Field>, i: nat)
    requires i < |fs| && fs[i].key !in Keys(fs[..i])
    ensures Lookup(fs, fs[i].key) == fs[i].val
  {
    if i > 0 {
      assert fs[0].key == Keys(fs[..i])[0];
      assert fs[1..][..i - 1] == fs[..i][1..];
      assert Keys(fs[..i][1..]) == Keys(fs[..i])[1..];
      LookupAt(fs[1..], i - 1);
    }
  }

  /** The object literal `{k0: v0, k1: v1, ...}`, names in the order written. */
  function Record(keys: seq<string>, vals: seq<Val>): (r: Val)
    requires |keys| == |vals|
    ensures r.Obj? && |r.fields| == |keys| && Keys(r.fields) == keys
    ensures forall i :: 0 <= i < |keys| ==> r.fields[i] == Field(keys[i], vals[i])
  {
    Obj(seq(|keys|, i requires 0 <= i < |keys| => Field(keys[i], vals[i])))
  }

  /** No name occurs twice in `ks`. */
  predicate DistinctKeys(ks: seq<string>) {
    forall a, b :: 0 <= a < b < |ks| ==> ks[a] != ks[b]
  }

  /** In a property list with distinct names, each property is read back. */
  lemma {:induction false} LookupDistinct(fs: seq<Field>, i: nat)
    requires i < |fs| && DistinctKeys(Keys(fs))
    ensures Lookup(fs, fs[i].key) == fs[i].val
  {
    if i > 0 {
      assert Keys(fs)[0] != Keys(fs)[i];
      forall a, b | 0 <= a < b < |fs| - 1
        ensures Keys(fs[1..])[a] != Keys(fs[1..])[b]
      {
        assert Keys(fs[1..])[a] == Keys(fs)[a + 1];
        assert Keys(fs[1..])[b] == Keys(fs)[b + 1];
      }
      LookupDistinct(fs[1..], i - 1);
    }
  }

  /** Distinct names make a property list a real object's. */
  lemma {:induction false} DistinctUnique(fs: seq<Field>)
    requires DistinctKeys(Keys(fs))
    ensures UniqueKeys(fs)
  {
    if fs != [] {
      forall j | 0 <= j < |fs| - 1
        ensures Keys(fs[1..])[j] != fs[0].key
      {
        assert Keys(fs[1..])[j] == Keys(fs)[j + 1];
        assert Keys(fs)[0] != Keys(fs)[j + 1];
      }
      forall a, b | 0 <= a < b < |fs| - 1
        ensures Keys(fs[1..])[a] != Keys(fs[1..])[b]
      {
        assert Keys(fs[1..])[a] == Keys(fs)[a + 1];
        assert Keys(fs[1..])[b] == Keys(fs)[b + 1];
      }
      DistinctUnique(fs[1..]);
    }
  }

  /** Writing a property with the value it already holds changes nothing. */
  lemma {:induction false} PutExisting(fs: seq<Field>, k: string, x: Val)
    requires k in Keys(fs) && Lookup(fs, k) == x
    ensures Put(fs, k, x) == fs
  {
    if fs[0].key != k {
      PutExisting(fs[1..], k, x);
    }
  }

  /** `{...{...v, [k]: x}, [k]: x}` is `{...v, [k]: x}`. */
  lemma PutTwice(fs: seq<Field>, k: string, x: Val)
    ensures Put(Put(fs, k, x), k, x) == Put(fs, k, x)
  {
    LookupPutSame(fs, k, x);
    PutExisting(Put(fs, k, x), k, x);
  }

  /** Spreading properties that `base` already holds, with the same values,
      changes nothing. */
  lemma {:induction false} MergeExisting(base: seq<Field>, over: seq<Field>)
    requires forall i :: 0 <= i < |over| ==> over[i].key in Keys(base) && Lookup(base, over[i].key) == over[i].val
    ensures Merge(base, over) == base
    decreases |over|
  {
    if over != [] {
      PutExisting(base, over[0].key, over[0].val);
      MergeExisting(base, over[1..]);
    }
  }

  // ---------------------------------------------------------------- strings

  /** String(v), also what a template literal `${v}` inserts. */
  function ToJsString(v: Val): string
    decreases v, 1, 0
  {
    match v
    case Undefined => "undefined"
    case Null => "null"
    case Bool(b) => if b then "true" else "false"
    case Num(n) => IntToString(n)
    case Str(s) => s
    case Arr(items) => ArrayJoin(v, 0)
    case Obj(_) => "[object Object]"
  }

  /** Array.prototype.toString from index `i` on: elements joined by ",",
      null and undefined elements written as the empty string. */
  function ArrayJoin(v: Val, i: nat): string
    requires v.Arr? && i <= |v.items|
    decreases v, 0, |v.items| - i
  {
    if i == |v.items| then ""
    else
      var x := v.items[i];
      (if i > 0 then "," else "")
      + (if x.Undefined? || x.Null? then "" else ToJsString(x))
      + ArrayJoin(v, i + 1)
  }

  /** `items.join(sep)`: null and undefined elements are written as the empty string. */
  function JoinElems(items: seq<Val>, sep: string): string {
    if items == [] then ""
    else
      var head := if Nullish(items[0]) then "" else ToJsString(items[0]);
      if |items| == 1 then head else head + sep + JoinElems(items[1..], sep)
  }

  /** `Object.values(v)`: own property values of an object, elements of an
      array, one-character strings of a string, nothing for other primitives. */
  function Values(v: Val): (r: seq<Val>)
    ensures v.Obj? ==> |r| == |v.fields|
  {
    match v
    case Obj(fs) => seq(|fs|, j requires 0 <= j < |fs| => fs[j].val)
    case Arr(items) => items
    case Str(s) => seq(|s|, j requires 0 <= j < |s| => Str([s[j]]))
    case _ => []
  }

  /** `items.flat()`: array elements are spliced in one level deep. */
  function Flat(items: seq<Val>): seq<Val> {
    if items == [] then []
    else (if items[0].Arr? then items[0].items else [items[0]]) + Flat(items[1..])
  }

  /** Every element of a non-array entry and every element of an array entry
      reaches the flattened list. */
  lemma {:induction false} FlatKeeps(items: seq<Val>, i: nat, x: Val)
    requires i < |items|
    requires if items[i].Arr? then x in items[i].items else x == items[i]
    ensures x in Flat(items)
  {
    if i > 0 {
      FlatKeeps(items[1..], i - 1, x);
      assert Flat(items) == (if items[0].Arr? then items[0].items else [items[0]]) + Flat(items[1..]);
    }
  }

  /** Nothing else reaches it: each element comes from one entry, spliced or kept. */
  lemma {:induction false} FlatOrigin(items: seq<Val>, x: Val)
    requires x in Flat(items)
    ensures exists i :: 0 <= i < |items| && (if items[i].Arr? then x in items[i].items else x == items[i])
  {
    var head := if items[0].Arr? then items[0].items else [items[0]];
    if x !in head {
      FlatOrigin(items[1..], x);
      var i :| 0 <= i < |items[1..]| && (if items[1..][i].Arr? then x in items[1..][i].items else x == items[1..][i]);
      assert items[i + 1] == items[1..][i];
    }
  }

  /** The characters String.prototype.trim removes: WhiteSpace and LineTerminator. */
  predicate IsJsSpace(c: char) {
    c == '\t' || c == '\n' || c == '\U{B}' || c == '\U{C}' || c == '\r' || c == ' '
    || c == '\U{A0}' || c == '\U{1680}' || ('\U{2000}' <= c <= '\U{200A}')
    || c == '\U{2028}' || c == '\U{2029}' || c == '\U{202F}' || c == '\U{205F}'
    || c == '\U{3000}' || c == '\U{FEFF}'
  }

  function TrimStart(s: string): (r: string)
    ensures |r| <= |s| && r == s[|s| - |r|..]
    ensures r != [] ==> !IsJsSpace(r[0])
    ensures forall i :: 0 <= i < |s| - |r| ==> IsJsSpace(s[i])
  {
    if s != [] && IsJsSpace(s[0]) then TrimStart(s[1..]) else s
  }

  function TrimEnd(s: string): (r: string)
    ensures |r| <= |s| && r == s[..|r|]
    ensures r != [] ==> !IsJsSpace(r[|r| - 1])
    ensures forall i :: |r| <= i < |s| ==> IsJsSpace(s[i])
  {
    if s != [] && IsJsSpace(s[|s| - 1]) then TrimEnd(s[..|s| - 1]) else s
  }

  /** String.prototype.trim */
  function Trim(s: string): string {
    TrimEnd(TrimStart(s))
  }

  /** `s.trim()` is empty exactly when `s` is blank. */
  lemma TrimEmptyIffBlank(s: string)
    ensures Trim(s) == [] <==> forall i :: 0 <= i < |s| ==> IsJsSpace(s[i])
  {
    var t := TrimStart(s);
    if t != [] {
      assert t[0] == s[|s| - |t|];
    }
  }

  /** A trimmed string has no space at either end. */
  lemma TrimHasNoOuterSpace(s: string)
    ensures Trim(s) != [] ==> !IsJsSpace(Trim(s)[0]) && !IsJsSpace(Trim(s)[|Trim(s)| - 1])
  {
    var t := TrimStart(s);
    var r := TrimEnd(t);
    if r != [] {
      assert r[0] == t[0];
    }
  }

  // ---------------------------------------------------------------- errors

  /** `new Error(message)` */
  function ErrorObj(message: Val): Val {
    Obj([Field("message", message)])
  }

  /** `new Error(message)` for a defined `message`, which the constructor
      converts to a string. */
  function NewError(message: Val): Val {
    ErrorObj(Str(ToJsString(message)))
  }

  /** The TypeError the engine throws when a property of null or undefined is
      read, or a non-function is called; its message text is not represented. */
  function TypeErrorObj(): Val {
    ErrorObj(Str("TypeError"))
  }

  /** The message a `catch` block shows: `err.message || fallback`; reading
      the message of a missing error throws (None). */
  function MessageOr(err: Val, fallback: string): (r: Option<Val>)
    ensures r.None? <==> Nullish(err)
    ensures r.Some? && Truthy(Get(err, "message")) ==> r.value == Get(err, "message")
    ensures r.Some? && !Truthy(Get(err, "message")) ==> r.value == Str(fallback)
  {
    if Nullish(err) then None else Some(Or(Get(err, "message"), Str(fallback)))
  }

  // ---------------------------------------------------------------- arrays

  /** Index of the first element satisfying `p`: `array.findIndex(p)`. */
  function FindIndex(items: seq<Val>, p: Val -> bool): (r: Option<nat>)
    ensures r.Some? ==> r.value < |items| && p(items[r.value])
    ensures r.Some? ==> forall j :: 0 <= j < r.value ==> !p(items[j])
    ensures r.None? ==> forall j :: 0 <= j < |items| ==> !p(items[j])
  {
    if items == [] then None
    else if p(items[0]) then Some(0)
    else match FindIndex(items[1..], p)
      case None => None
      case Some(i) => Some(i + 1)
  }

  /** `array.find(p)`: the first element satisfying `p`, or undefined. */
  function Find(items: seq<Val>, p: Val -> bool): Val {
    match FindIndex(items, p)
    case None => Undefined
    case Some(i) => items[i]
  }

  /** `array.filter(p)` */
  function Filter(items: seq<Val>, p: Val -> bool): (r: seq<Val>)
    ensures |r| <= |items|
    ensures forall x :: x in r ==> x in items && p(x)
  {
    if items == [] then []
    else (if p(items[0]) then [items[0]] else []) + Filter(items[1..], p)
  }

  /** Filtering distributes over concatenation, so it keeps relative order. */
  lemma {:induction false} FilterAppend(a: seq<Val>, b: seq<Val>, p: Val -> bool)
    ensures Filter(a + b, p) == Filter(a, p) + Filter(b, p)
  {
    if a != [] {
      assert (a + b)[1..] == a[1..] + b;
      FilterAppend(a[1..], b, p);
    } else {
      assert a + b == b;
    }
  }

  /** Every element satisfying `p` is kept. */
  lemma {:induction false} FilterKeeps(items: seq<Val>, p: Val -> bool, x: Val)
    requires x in items && p(x)
    ensures x in Filter(items, p)
  {
    if items[0] != x {
      FilterKeeps(items[1..], p, x);
    }
  }

  /** `list.find(x => x.id === id)` throws when it reaches a missing element
      before the first match. */
  predicate FindThrows(items: seq<Val>, id: Val) {
    items != [] && (Nullish(items[0]) || (!StrictEq(Get(items[0], "id"), id) && FindThrows(items[1..], id)))
  }

  function HasId(id: Val): Val -> bool {
    x => StrictEq(Get(x, "id"), id)
  }

  /** A search that does not throw finds the first element with the id. */
  lemma {:induction false} FindFirst(items: seq<Val>, id: Val)
    requires !FindThrows(items, id) && Truthy(id)
    ensures FindIndex(items, HasId(id)).Some? ==> Truthy(Find(items, HasId(id)))
  {
    var r := FindIndex(items, HasId(id));
    if r.Some? {
      assert Get(items[r.value], "id") == id;
    }
  }

  // ---------------------------------------------------------------- responses

  /** `Array.isArray(d) ? d : d.results ? d.results : []`; reading `results`
      of a missing reply throws (None). A truthy `results` is taken whatever
      its type. */
  function NormalizeList(data: Val): (r: Option<Val>)
    ensures r.None? <==> Nullish(data)
    ensures data.Arr? ==> r == Some(data)
    ensures !data.Arr? && Truthy(Get(data, "results")) ==> r == Some(Get(data, "results"))
    ensures !data.Arr? && !Nullish(data) && !Truthy(Get(data, "results")) ==> r == Some(Arr([]))
  {
    if data.Arr? then Some(data)
    else if Nullish(data) then None
    else if Truthy(Get(data, "results")) then Some(Get(data, "results"))
    else Some(Arr([]))
  }
}
