/** JSON.stringify and JSON.parse, as far as the client uses them: the user
    record kept under the "user" key of localStorage is written with
    JSON.stringify and read back with JSON.parse. */
module Json {
  import opened Decimal
  import opened JsValue

  // ------------------------------------------------ values JSON can carry

  /** Every object inside has distinct property names, as every JavaScript object does. */
  predicate WellFormed(v: Val) {
    match v
    case Arr(items) => forall j :: 0 <= j < |items| ==> WellFormed(items[j])
    case Obj(fs) => UniqueKeys(fs) && forall j :: 0 <= j < |fs| ==> WellFormed(fs[j].val)
    case _ => true
  }

  /** A well-formed value with no undefined anywhere inside: JSON carries it unchanged. */
  predicate Plain(v: Val) {
    match v
    case Undefined => false
    case Arr(items) => forall j :: 0 <= j < |items| ==> Plain(items[j])
    case Obj(fs) => UniqueKeys(fs) && forall j :: 0 <= j < |fs| ==> Plain(fs[j].val)
    case _ => true
  }

  /** What JSON.parse gives back for a value written by JSON.stringify inside an
      array or object: an undefined element becomes null, a property whose value
      is undefined disappears. */
  function Norm(v: Val): Val {
    match v
    case Undefined => Null
    case Arr(items) => Arr(seq(|items|, j requires 0 <= j < |items| => Norm(items[j])))
    case Obj(fs) => Obj(NormFields(fs))
    case _ => v
  }

  function NormFields(fs: seq<Field>): seq<Field> {
    if fs == [] then []
    else (if fs[0].val.Undefined? then [] else [Field(fs[0].key, Norm(fs[0].val))]) + NormFields(fs[1..])
  }

  // ------------------------------------------------ JSON.stringify

  predicate IsWs(c: char) {
    c == ' ' || c == '\t' || c == '\n' || c == '\r'
  }

  function HexDigit(d: nat): (c: char)
    requires d < 16
    ensures IsHex(c) && HexValue(c) == d
  {
    if d < 10 then ('0' as int + d) as char else ('a' as int + d - 10) as char
  }

  predicate IsHex(c: char) {
    '0' <= c <= '9' || 'a' <= c <= 'f' || 'A' <= c <= 'F'
  }

  function HexValue(c: char): nat
    requires IsHex(c)
  {
    if '0' <= c <= '9' then c as int - '0' as int
    else if 'a' <= c <= 'f' then c as int - 'a' as int + 10
    else c as int - 'A' as int + 10
  }

  /** How JSON.stringify writes one character inside a string literal. */
  function EscapeChar(c: char): string {
    if c == '"' then "\\\""
    else if c == '\\' then "\\\\"
    else if c == '\U{8}' then "\\b"
    else if c == '\U{C}' then "\\f"
    else if c == '\n' then "\\n"
    else if c == '\r' then "\\r"
    else if c == '\t' then "\\t"
    else if c < ' ' then "\\u00" + [HexDigit(c as int / 16), HexDigit(c as int % 16)]
    else [c]
  }

  function Escape(s: string): string {
    if s == [] then [] else EscapeChar(s[0]) + Escape(s[1..])
  }

  function Quote(s: string): string {
    "\"" + Escape(s) + "\""
  }

  /** The JSON text of a value inside an array or object (undefined written as null). */
  function Enc(v: Val): string {
    match v
    case Undefined => "null"
    case Null => "null"
    case Bool(b) => if b then "true" else "false"
    case Num(n) => IntToString(n)
    case Str(s) => Quote(s)
    case Arr(items) => "[" + EncItems(items) + "]"
    case Obj(fs) => "{" + EncFields(fs) + "}"
  }

  function EncItems(items: seq<Val>): string {
    if items == [] then ""
    else if |items| == 1 then Enc(items[0])
    else Enc(items[0]) + "," + EncItems(items[1..])
  }

  function EncFields(fs: seq<Field>): string {
    if fs == [] then ""
    else if |fs| == 1 then Quote(fs[0].key) + ":" + Enc(fs[0].val)
    else Quote(fs[0].key) + ":" + Enc(fs[0].val) + "," + EncFields(fs[1..])
  }

  /** What `localStorage.setItem(k, JSON.stringify(v))` stores. JSON.stringify(undefined)
      is undefined, which setItem stores as the text "undefined". */
  function Stringify(v: Val): string {
    if v.Undefined? then "undefined" else Enc(Norm(v))
  }

  // ------------------------------------------------ JSON.parse

  function SkipWs(s: string): (r: string)
    ensures |r| <= |s| && r == s[|s| - |r|..]
    ensures r != [] ==> !IsWs(r[0])
  {
    if s != [] && IsWs(s[0]) then SkipWs(s[1..]) else s
  }

  /** The character an escape `\c` stands for, other than `\u`. */
  function Unescape(c: char): Option<char> {
    if c == '"' then Some('"')
    else if c == '\\' then Some('\\')
    else if c == '/' then Some('/')
    else if c == 'b' then Some('\U{8}')
    else if c == 'f' then Some('\U{C}')
    else if c == 'n' then Some('\n')
    else if c == 'r' then Some('\r')
    else if c == 't' then Some('\t')
    else None
  }

  predicate IsHex4(s: string) {
    |s| == 4 && IsHex(s[0]) && IsHex(s[1]) && IsHex(s[2]) && IsHex(s[3])
  }

  function Hex4Value(s: string): nat
    requires IsHex4(s)
  {
    ((HexValue(s[0]) * 16 + HexValue(s[1])) * 16 + HexValue(s[2])) * 16 + HexValue(s[3])
  }

  /** The body of a string literal up to its closing quote, and the text after it.
      A raw control character, an unknown escape or a lone surrogate escape is refused. */
  function ParseStrBody(s: string): (r: Option<(string, string)>)
    ensures r.Some? ==> |r.value.1| < |s|
  {
    if s == [] then None
    else if s[0] == '"' then Some(([], s[1..]))
    else if s[0] < ' ' then None
    else if s[0] != '\\' then
      match ParseStrBody(s[1..])
      case None => None
      case Some(p) => Some(([s[0]] + p.0, p.1))
    else if |s| < 2 then None
    else if s[1] == 'u' then
      if |s| < 6 || !IsHex4(s[2..6]) then None
      else
        var code := Hex4Value(s[2..6]);
        if 0xD800 <= code <= 0xDFFF then None
        else match ParseStrBody(s[6..])
          case None => None
          case Some(p) => Some(([code as char] + p.0, p.1))
    else match Unescape(s[1])
      case None => None
      case Some(c) =>
        match ParseStrBody(s[2..])
        case None => None
        case Some(p) => Some(([c] + p.0, p.1))
  }

  /** A run of digits without a leading zero, not followed by a fraction or an
      exponent (numbers here are integers, so those are refused). */
  function ParseDigits(t: string): (r: Option<(nat, string)>)
    ensures r.Some? ==> |r.value.1| < |t|
  {
    var k := DigitSpan(t);
    if k == 0 || (t[0] == '0' && k > 1) then None
    else if k < |t| && (t[k] == '.' || t[k] == 'e' || t[k] == 'E') then None
    else Some((DigitsValue(t[..k]), t[k..]))
  }

  /** An integer literal with an optional minus sign. */
  function ParseNumber(t: string): (r: Option<(Val, string)>)
    requires t != []
    ensures r.Some? ==> |r.value.1| < |t|
  {
    if t[0] == '-' then
      match ParseDigits(t[1..])
      case None => None
      case Some(p) => Some((Num(0 - p.0), p.1))
    else
      match ParseDigits(t)
      case None => None
      case Some(p) => Some((Num(p.0), p.1))
  }

  /** A keyword such as `null` standing for the value `v`. */
  function ParseWord(t: string, word: string, v: Val): (r: Option<(Val, string)>)
    requires word != []
    ensures r.Some? ==> |r.value.1| < |t|
  {
    if |word| <= |t| && t[..|word|] == word then Some((v, t[|word|..])) else None
  }

  /** A string literal starting at its opening quote. */
  function ParseString(t: string): (r: Option<(Val, string)>)
    requires t != []
    ensures r.Some? ==> |r.value.1| < |t|
  {
    match ParseStrBody(t[1..])
    case None => None
    case Some(p) => Some((Str(p.0), p.1))
  }

  /** One value after optional white space, and the text after it. */
  function ParseValue(s: string): (r: Option<(Val, string)>)
    ensures r.Some? ==> |r.value.1| < |s|
    decreases |s|, 2
  {
    ParseAt(SkipWs(s))
  }

  /** One value starting at the first character of `t`. */
  function ParseAt(t: string): (r: Option<(Val, string)>)
    ensures r.Some? ==> |r.value.1| < |t|
    decreases |t|, 1
  {
    if t == [] then None
    else if t[0] == 'n' then ParseWord(t, "null", Null)
    else if t[0] == 't' then ParseWord(t, "true", Bool(true))
    else if t[0] == 'f' then ParseWord(t, "false", Bool(false))
    else if t[0] == '"' then ParseString(t)
    else if t[0] == '-' || IsDigit(t[0]) then ParseNumber(t)
    else if t[0] == '[' then ParseArray(t)
    else if t[0] == '{' then ParseObject(t)
    else None
  }

  /** An array starting at its `[`. */
  function ParseArray(t: string): (r: Option<(Val, string)>)
    requires t != []
    ensures r.Some? ==> |r.value.1| < |t|
    decreases |t|, 0
  {
    var u := SkipWs(t[1..]);
    if u != [] && u[0] == ']' then Some((Arr([]), u[1..])) else ParseItems(t[1..], [])
  }

  /** An object starting at its `{`. */
  function ParseObject(t: string): (r: Option<(Val, string)>)
    requires t != []
    ensures r.Some? ==> |r.value.1| < |t|
    decreases |t|, 0
  {
    var u := SkipWs(t[1..]);
    if u != [] && u[0] == '}' then Some((Obj([]), u[1..])) else ParseMembers(t[1..], [])
  }

  /** The elements of an array after its `[`, appended to `acc`, up to and including `]`. */
  function ParseItems(s: string, acc: seq<Val>): (r: Option<(Val, string)>)
    ensures r.Some? ==> |r.value.1| < |s|
    decreases |s|, 3
  {
    match ParseValue(s)
    case None => None
    case Some(p) =>
      var u := SkipWs(p.1);
      if u != [] && u[0] == ',' then ParseItems(u[1..], acc + [p.0])
      else if u != [] && u[0] == ']' then Some((Arr(acc + [p.0]), u[1..]))
      else None
  }

  /** The members of an object after its `{`, up to and including `}`. A repeated
      name keeps its first position and takes the last value, as in JavaScript. */
  function ParseMembers(s: string, acc: seq<Field>): (r: Option<(Val, string)>)
    ensures r.Some? ==> |r.value.1| < |s|
    decreases |s|, 3
  {
    var t := SkipWs(s);
    if t == [] || t[0] != '"' then None
    else match ParseStrBody(t[1..])
      case None => None
      case Some(key) => ParseMemberValue(key.1, key.0, acc, |s|)
  }

  /** The `: value` part of a member named `key`, then `,` and more members or `}`. */
  function ParseMemberValue(s: string, key: string, acc: seq<Field>, bound: nat): (r: Option<(Val, string)>)
    requires |s| < bound
    ensures r.Some? ==> |r.value.1| < |s|
    decreases bound, 2
  {
    var u := SkipWs(s);
    if u == [] || u[0] != ':' then None
    else match ParseValue(u[1..])
      case None => None
      case Some(p) => MemberEnd(SkipWs(p.1), Put(acc, key, p.0), bound)
  }

  /** After a member's value: `,` and more members, or the closing `}`. */
  function MemberEnd(w: string, fields: seq<Field>, bound: nat): (r: Option<(Val, string)>)
    requires |w| < bound
    ensures r.Some? ==> |r.value.1| < |w|
    decreases bound, 1
  {
    if w != [] && w[0] == ',' then ParseMembers(w[1..], fields)
    else if w != [] && w[0] == '}' then Some((Obj(fields), w[1..]))
    else None
  }

  /** JSON.parse: a value surrounded by optional white space; None where JSON.parse throws. */
  function Parse(s: string): Option<Val> {
    match ParseValue(s)
    case None => None
    case Some(p) => if SkipWs(p.1) == [] then Some(p.0) else None
  }
}

module JsonRoundTrip {
  import opened Decimal
  import opened JsValue
  import opened Json

  /** What may follow a value that JSON.stringify wrote: the end of the text or
      the punctuation of an enclosing array or object. */
  predicate CanFollow(rest: string) {
    rest == [] || rest[0] == ',' || rest[0] == ']' || rest[0] == '}'
  }

  lemma SkipWsNoop(s: string)
    requires s != [] && !IsWs(s[0])
    ensures SkipWs(s) == s
  {
  }

  /** Reading back one escaped character. */
  lemma EscapeCharRoundTrip(c: char, s': string)
    ensures ParseStrBody(EscapeChar(c) + s') ==
      match ParseStrBody(s')
      case None => None
      case Some(p) => Some(([c] + p.0, p.1))
  {
    var e := EscapeChar(c);
    var s := e + s';
    if c == '"' || c == '\\' || c == '\U{8}' || c == '\U{C}' || c == '\n' || c == '\r' || c == '\t' {
      assert |e| == 2 && s[0] == '\\' && s[2..] == s';
      assert Unescape(s[1]) == Some(c);
    } else if c < ' ' {
      var h1, h2 := HexDigit(c as int / 16), HexDigit(c as int % 16);
      assert e == ['\\', 'u', '0', '0', h1, h2];
      assert s[2..6] == ['0', '0', h1, h2];
      assert Hex4Value(s[2..6]) == c as int;
      assert s[6..] == s';
    } else {
      assert e == [c] && s[1..] == s';
    }
  }

  lemma {:induction false} EscapeRoundTrip(t: string, rest: string)
    ensures ParseStrBody(Escape(t) + "\"" + rest) == Some((t, rest))
    decreases |t|
  {
    if t == [] {
      assert Escape(t) + "\"" + rest == "\"" + rest;
    } else {
      var s' := Escape(t[1..]) + "\"" + rest;
      assert Escape(t) + "\"" + rest == EscapeChar(t[0]) + s';
      EscapeRoundTrip(t[1..], rest);
      EscapeCharRoundTrip(t[0], s');
      assert [t[0]] + t[1..] == t;
    }
  }

  /** Which reader ParseAt hands a text to, by its first character. */
  lemma ParseAtDispatch(t: string)
    requires t != []
    ensures t[0] == 'n' ==> ParseAt(t) == ParseWord(t, "null", Null)
    ensures t[0] == 't' ==> ParseAt(t) == ParseWord(t, "true", Bool(true))
    ensures t[0] == 'f' ==> ParseAt(t) == ParseWord(t, "false", Bool(false))
    ensures t[0] == '"' ==> ParseAt(t) == ParseString(t)
    ensures t[0] == '-' || IsDigit(t[0]) ==> ParseAt(t) == ParseNumber(t)
    ensures t[0] == '[' ==> ParseAt(t) == ParseArray(t)
    ensures t[0] == '{' ==> ParseAt(t) == ParseObject(t)
  {
  }

  lemma DigitsRoundTrip(m: nat, rest: string)
    requires CanFollow(rest)
    ensures ParseDigits(NatToString(m) + rest) == Some((m, rest))
  {
    var d := NatToString(m);
    var t := d + rest;
    DigitSpanOfDigits(d, rest);
    assert t[..|d|] == d && t[|d|..] == rest;
    NatToStringRoundTrip(m);
  }

  lemma NumberRoundTrip(n: int, rest: string)
    requires CanFollow(rest)
    ensures ParseNumber(IntToString(n) + rest) == Some((Num(n), rest))
  {
    var s := IntToString(n) + rest;
    if n < 0 {
      assert s == "-" + (NatToString(-n) + rest);
      NegativeRoundTrip(n, rest);
    } else {
      assert s == NatToString(n) + rest && s[0] != '-';
      DigitsRoundTrip(n, rest);
    }
  }

  /** A minus sign followed by the digits of `-n` reads back as `n`. */
  lemma NegativeRoundTrip(n: int, rest: string)
    requires n < 0 && CanFollow(rest)
    ensures ParseNumber("-" + (NatToString(-n) + rest)) == Some((Num(n), rest))
  {
    var s := "-" + (NatToString(-n) + rest);
    assert s[0] == '-' && s[1..] == NatToString(-n) + rest;
    DigitsRoundTrip(-n, rest);
  }

  lemma WordRoundTrip(word: string, v: Val, rest: string)
    requires word in {"null", "true", "false"}
    requires v == (if word == "null" then Null else Bool(word == "true"))
    ensures ParseWord(word + rest, word, v) == Some((v, rest))
  {
    var s := word + rest;
    assert s[..|word|] == word && s[|word|..] == rest;
  }

  lemma StringRoundTrip(str: string, rest: string)
    ensures ParseString(Quote(str) + rest) == Some((Str(str), rest))
  {
    var s := Quote(str) + rest;
    assert s[1..] == Escape(str) + "\"" + rest;
    EscapeRoundTrip(str, rest);
  }

  /** The JSON text of a value never starts with white space or a closing bracket. */
  lemma EncFirst(w: Val)
    ensures Enc(w) != [] && !IsWs(Enc(w)[0]) && Enc(w)[0] != ']' && Enc(w)[0] != '}'
  {
    match w
    case Num(n) =>
      var s := IntToString(n);
      assert s[0] == '-' || IsDigit(s[0]) by {
        if n >= 0 { assert s == NatToString(n); }
      }
    case _ =>
  }

  lemma AppendHead<T>(acc: seq<T>, xs: seq<T>)
    requires xs != []
    ensures acc + [xs[0]] + xs[1..] == acc + xs
  {
    assert [xs[0]] + xs[1..] == xs;
  }

  lemma PutFresh(fs: seq<Field>, k: string, x: Val)
    requires k !in Keys(fs)
    ensures Put(fs, k, x) == fs + [Field(k, x)]
  {
    if fs != [] {
      assert fs[0].key == Keys(fs)[0];
      assert Keys(fs[1..]) == Keys(fs)[1..];
      PutFresh(fs[1..], k, x);
    }
  }

  lemma KeysAppend(a: seq<Field>, b: seq<Field>)
    ensures Keys(a + b) == Keys(a) + Keys(b)
  {
    if a != [] {
      assert (a + b)[1..] == a[1..] + b;
      KeysAppend(a[1..], b);
    }
  }

  // ------------------------------------------------ one reading step at a time

  lemma ParseValueAt(s: string)
    requires s != [] && !IsWs(s[0])
    ensures ParseValue(s) == ParseAt(s)
  {
  }

  lemma ParseArrayEmpty(rest: string)
    ensures ParseArray("[" + "]" + rest) == Some((Arr([]), rest))
  {
    var t := "[" + "]" + rest;
    assert t[1..] == "]" + rest;
    SkipWsNoop(t[1..]);
  }

  lemma ParseArrayItems(body: string)
    requires body != [] && !IsWs(body[0]) && body[0] != ']'
    ensures ParseArray("[" + body) == ParseItems(body, [])
  {
    var t := "[" + body;
    assert t[1..] == body;
    SkipWsNoop(body);
  }

  lemma ParseItemsStep(s: string, acc: seq<Val>, x: Val, after: string)
    requires ParseValue(s) == Some((x, after))
    requires after != [] && (after[0] == ',' || after[0] == ']')
    ensures ParseItems(s, acc) ==
      if after[0] == ',' then ParseItems(after[1..], acc + [x]) else Some((Arr(acc + [x]), after[1..]))
  {
    SkipWsNoop(after);
  }

  lemma ParseObjectEmpty(rest: string)
    ensures ParseObject("{" + "}" + rest) == Some((Obj([]), rest))
  {
    var t := "{" + "}" + rest;
    assert t[1..] == "}" + rest;
    SkipWsNoop(t[1..]);
  }

  lemma ParseObjectMembers(body: string)
    requires body != [] && !IsWs(body[0]) && body[0] != '}'
    ensures ParseObject("{" + body) == ParseMembers(body, [])
  {
    var t := "{" + body;
    assert t[1..] == body;
    SkipWsNoop(body);
  }

  lemma ParseMembersStep(s: string, acc: seq<Field>, key: string, after: string)
    requires s != [] && s[0] == '"' && ParseStrBody(s[1..]) == Some((key, after))
    ensures ParseMembers(s, acc) == ParseMemberValue(after, key, acc, |s|)
  {
    SkipWsNoop(s);
  }

  lemma ParseMemberValueStep(s: string, key: string, acc: seq<Field>, bound: nat, x: Val, after: string)
    requires |s| < bound && s != [] && s[0] == ':'
    requires ParseValue(s[1..]) == Some((x, after))
    requires after != [] && (after[0] == ',' || after[0] == '}')
    ensures ParseMemberValue(s, key, acc, bound) ==
      if after[0] == ',' then ParseMembers(after[1..], Put(acc, key, x))
      else Some((Obj(Put(acc, key, x)), after[1..]))
  {
    SkipWsNoop(s);
    SkipWsNoop(after);
  }

  // ------------------------------------------------ the round trip

  lemma EncItemsCons(items: seq<Val>)
    requires items != []
    ensures EncItems(items) == Enc(items[0]) + (if |items| == 1 then "" else "," + EncItems(items[1..]))
    ensures EncItems(items) != [] && !IsWs(EncItems(items)[0]) && EncItems(items)[0] != ']'
  {
    EncFirst(items[0]);
  }

  lemma EncFieldsCons(fs: seq<Field>)
    requires fs != []
    ensures EncFields(fs) == Quote(fs[0].key) + ":" + Enc(fs[0].val) + (if |fs| == 1 then "" else "," + EncFields(fs[1..]))
  {
  }

  /** JSON.parse reads back every plain value JSON.stringify wrote, whatever
      punctuation follows it. */
  lemma {:induction false} ValueRoundTrip(w: Val, rest: string)
    requires Plain(w) && CanFollow(rest)
    ensures ParseValue(Enc(w) + rest) == Some((w, rest))
    decreases w, 2
  {
    var s := Enc(w) + rest;
    EncFirst(w);
    ParseValueAt(s);
    ParseAtDispatch(s);
    match w
    case Null =>
      WordRoundTrip("null", Null, rest);
    case Bool(b) =>
      WordRoundTrip(if b then "true" else "false", w, rest);
    case Num(n) =>
      NumberRoundTrip(n, rest);
      assert s[0] == '-' || IsDigit(s[0]) by {
        if n >= 0 { assert IntToString(n) == NatToString(n); }
      }
    case Str(str) =>
      StringRoundTrip(str, rest);
    case Arr(items) =>
      ArrayRoundTrip(w, rest);
    case Obj(fs) =>
      ObjectRoundTrip(w, rest);
  }

  lemma {:induction false} ArrayRoundTrip(w: Val, rest: string)
    requires w.Arr? && Plain(w) && CanFollow(rest)
    ensures ParseArray(Enc(w) + rest) == Some((w, rest))
    decreases w, 1
  {
    var items := w.items;
    var body := EncItems(items) + "]" + rest;
    assert Enc(w) + rest == "[" + body;
    if items == [] {
      assert "[" + body == "[" + "]" + rest;
      ParseArrayEmpty(rest);
    } else {
      assert [] + items == items;
      EncItemsCons(items);
      assert body != [] && !IsWs(body[0]) && body[0] != ']';
      ItemsRoundTrip(items, [], rest);
      ParseArrayItems(body);
    }
  }

  lemma {:induction false} ItemsRoundTrip(items: seq<Val>, acc: seq<Val>, rest: string)
    requires items != [] && forall j :: 0 <= j < |items| ==> Plain(items[j])
    ensures ParseItems(EncItems(items) + "]" + rest, acc) == Some((Arr(acc + items), rest))
    decreases items, 1
  {
    if |items| == 1 {
      assert acc + [items[0]] == acc + items;
      ItemsHead(items, acc, rest);
    } else {
      ItemsTail(items);
      AppendHead(acc, items);
      ItemsRoundTrip(items[1..], acc + [items[0]], rest);
      ItemsHead(items, acc, rest);
    }
  }

  /** The elements after the first are plain too. */
  lemma ItemsTail(items: seq<Val>)
    requires |items| > 1 && forall j :: 0 <= j < |items| ==> Plain(items[j])
    ensures items[1..] != [] && forall j :: 0 <= j < |items[1..]| ==> Plain(items[1..][j])
  {
    forall j | 0 <= j < |items[1..]| ensures Plain(items[1..][j]) {
      assert items[1..][j] == items[j + 1];
    }
  }

  /** Reading the first element of an array body. */
  lemma {:induction false} ItemsHead(items: seq<Val>, acc: seq<Val>, rest: string)
    requires items != [] && Plain(items[0])
    ensures ParseItems(EncItems(items) + "]" + rest, acc) ==
      if |items| == 1 then Some((Arr(acc + [items[0]]), rest))
      else ParseItems(EncItems(items[1..]) + "]" + rest, acc + [items[0]])
    decreases items, 0
  {
    var x := items[0];
    var after := if |items| == 1 then "]" + rest else "," + (EncItems(items[1..]) + "]" + rest);
    assert EncItems(items) + "]" + rest == Enc(x) + after by {
      EncItemsCons(items);
    }
    ValueRoundTrip(x, after);
    ParseItemsStep(Enc(x) + after, acc, x, after);
    if |items| > 1 {
      assert after[1..] == EncItems(items[1..]) + "]" + rest;
    }
  }

  lemma {:induction false} ObjectRoundTrip(w: Val, rest: string)
    requires w.Obj? && Plain(w) && CanFollow(rest)
    ensures ParseObject(Enc(w) + rest) == Some((w, rest))
    decreases w, 1
  {
    var fs := w.fields;
    var body := EncFields(fs) + "}" + rest;
    assert Enc(w) + rest == "{" + body;
    if fs == [] {
      assert "{" + body == "{" + "}" + rest;
      ParseObjectEmpty(rest);
    } else {
      assert [] + fs == fs && Keys([]) == [];
      assert body != [] && body[0] == '"';
      FieldsRoundTrip(fs, [], rest);
      ParseObjectMembers(body);
    }
  }

  lemma {:induction false} FieldsRoundTrip(fs: seq<Field>, acc: seq<Field>, rest: string)
    requires fs != [] && UniqueKeys(fs) && forall j :: 0 <= j < |fs| ==> Plain(fs[j].val)
    requires forall j :: 0 <= j < |fs| ==> fs[j].key !in Keys(acc)
    ensures ParseMembers(EncFields(fs) + "}" + rest, acc) == Some((Obj(acc + fs), rest))
    decreases fs, 1
  {
    if |fs| == 1 {
      assert acc + [fs[0]] == acc + fs;
      FieldsHead(fs, acc, rest);
    } else {
      FieldsTail(fs, acc);
      AppendHead(acc, fs);
      FieldsRoundTrip(fs[1..], acc + [fs[0]], rest);
      FieldsHead(fs, acc, rest);
    }
  }

  /** The members after the first keep distinct, plain, fresh names once the
      first is read. */
  lemma FieldsTail(fs: seq<Field>, acc: seq<Field>)
    requires |fs| > 1 && UniqueKeys(fs) && forall j :: 0 <= j < |fs| ==> Plain(fs[j].val)
    requires forall j :: 0 <= j < |fs| ==> fs[j].key !in Keys(acc)
    ensures fs[1..] != [] && UniqueKeys(fs[1..])
    ensures forall j :: 0 <= j < |fs[1..]| ==> Plain(fs[1..][j].val)
    ensures forall j :: 0 <= j < |fs[1..]| ==> fs[1..][j].key !in Keys(acc + [fs[0]])
  {
    forall j | 0 <= j < |fs[1..]| ensures Plain(fs[1..][j].val) {
      assert fs[1..][j] == fs[j + 1];
    }
    FreshAfterPut(fs, acc);
  }

  /** Reading the first member of an object body. */
  lemma {:induction false} FieldsHead(fs: seq<Field>, acc: seq<Field>, rest: string)
    requires fs != [] && Plain(fs[0].val) && fs[0].key !in Keys(acc)
    ensures ParseMembers(EncFields(fs) + "}" + rest, acc) ==
      if |fs| == 1 then Some((Obj(acc + [fs[0]]), rest))
      else ParseMembers(EncFields(fs[1..]) + "}" + rest, acc + [fs[0]])
    decreases fs, 0
  {
    var f := fs[0];
    if |fs| == 1 {
      var after := "}" + rest;
      EncFieldsCons(fs);
      RegroupLast(Quote(f.key), Enc(f.val), rest);
      Member(f, after, acc);
    } else {
      var next := EncFields(fs[1..]) + "}" + rest;
      EncFieldsCons(fs);
      RegroupMore(Quote(f.key), Enc(f.val), EncFields(fs[1..]), rest);
      MemberThenMore(f, next, acc);
    }
  }

  /** Reading a whole member `"key":value` and the punctuation after it. */
  lemma {:induction false} Member(f: Field, after: string, acc: seq<Field>)
    requires Plain(f.val) && f.key !in Keys(acc)
    requires after != [] && (after[0] == ',' || after[0] == '}')
    ensures ParseMembers(Quote(f.key) + (":" + (Enc(f.val) + after)), acc) ==
      if after[0] == ',' then ParseMembers(after[1..], acc + [f])
      else Some((Obj(acc + [f]), after[1..]))
    decreases f, 1
  {
    var valueText := ":" + (Enc(f.val) + after);
    MemberName(f.key, valueText, acc);
    MemberValue(f, after, acc, |Quote(f.key) + valueText|);
  }

  lemma RegroupLast(q: string, v: string, rest: string)
    ensures q + ":" + v + "}" + rest == q + (":" + (v + ("}" + rest)))
  {
  }

  lemma RegroupMore(q: string, v: string, t: string, rest: string)
    ensures q + ":" + v + ("," + t) + "}" + rest == q + (":" + (v + ("," + (t + "}" + rest))))
  {
  }

  lemma MemberThenMore(f: Field, next: string, acc: seq<Field>)
    requires Plain(f.val) && f.key !in Keys(acc)
    ensures ParseMembers(Quote(f.key) + (":" + (Enc(f.val) + ("," + next))), acc) == ParseMembers(next, acc + [f])
    decreases f, 2
  {
    Member(f, "," + next, acc);
    assert ("," + next)[1..] == next;
  }

  /** Reading the `:value` part of a member and what follows it. */
  lemma {:induction false} MemberValue(f: Field, after: string, acc: seq<Field>, bound: nat)
    requires Plain(f.val) && f.key !in Keys(acc)
    requires after != [] && (after[0] == ',' || after[0] == '}')
    requires |":" + (Enc(f.val) + after)| < bound
    ensures ParseMemberValue(":" + (Enc(f.val) + after), f.key, acc, bound) ==
      if after[0] == ',' then ParseMembers(after[1..], acc + [f])
      else Some((Obj(acc + [f]), after[1..]))
    decreases f, 0
  {
    var valueText := ":" + (Enc(f.val) + after);
    ValueRoundTrip(f.val, after);
    assert valueText[1..] == Enc(f.val) + after;
    ParseMemberValueStep(valueText, f.key, acc, bound, f.val, after);
    PutFresh(acc, f.key, f.val);
  }

  /** Reading the quoted name of a member. */
  lemma MemberName(key: string, valueText: string, acc: seq<Field>)
    ensures ParseMembers(Quote(key) + valueText, acc) == ParseMemberValue(valueText, key, acc, |Quote(key) + valueText|)
  {
    var s := Quote(key) + valueText;
    assert s == "\"" + (Escape(key) + "\"" + valueText);
    EscapeRoundTrip(key, valueText);
    ParseMembersStep(s, acc, key, valueText);
  }

  /** After the first member is read, none of the later names has been seen yet. */
  lemma FreshAfterPut(fs: seq<Field>, acc: seq<Field>)
    requires fs != [] && UniqueKeys(fs)
    requires forall j :: 0 <= j < |fs| ==> fs[j].key !in Keys(acc)
    ensures forall j :: 0 <= j < |fs[1..]| ==> fs[1..][j].key !in Keys(acc + [fs[0]])
  {
    KeysAppend(acc, [fs[0]]);
    forall j | 0 <= j < |fs[1..]| ensures fs[1..][j].key != fs[0].key {
      assert fs[1..][j].key == Keys(fs[1..])[j];
    }
  }

  // ------------------------------------------------ what JSON.parse gives back

  lemma {:induction false} NormFieldsKeys(fs: seq<Field>)
    ensures forall k :: k in Keys(NormFields(fs)) ==> k in Keys(fs)
  {
    if fs != [] {
      NormFieldsKeys(fs[1..]);
      var head := if fs[0].val.Undefined? then [] else [Field(fs[0].key, Norm(fs[0].val))];
      KeysAppend(head, NormFields(fs[1..]));
    }
  }

  lemma {:induction false} NormFieldsUnique(fs: seq<Field>)
    requires UniqueKeys(fs)
    ensures UniqueKeys(NormFields(fs))
  {
    if fs != [] {
      NormFieldsUnique(fs[1..]);
      NormFieldsKeys(fs[1..]);
      var r := NormFields(fs);
      if fs[0].val.Undefined? {
        assert r == NormFields(fs[1..]);
      } else {
        assert r == [Field(fs[0].key, Norm(fs[0].val))] + NormFields(fs[1..]);
        assert r[0].key == fs[0].key && r[1..] == NormFields(fs[1..]);
      }
    }
  }

  /** Whatever a well-formed value holds, its normal form is plain. */
  lemma {:induction false} NormPlain(v: Val)
    requires WellFormed(v)
    ensures Plain(Norm(v))
    decreases v, 1
  {
    match v
    case Arr(items) =>
      forall j | 0 <= j < |items| ensures Plain(Norm(items[j])) {
        NormPlain(items[j]);
      }
    case Obj(fs) =>
      NormFieldsUnique(fs);
      NormFieldsPlain(fs);
    case _ =>
  }

  lemma {:induction false} NormFieldsPlain(fs: seq<Field>)
    requires forall j :: 0 <= j < |fs| ==> WellFormed(fs[j].val)
    ensures forall j :: 0 <= j < |NormFields(fs)| ==> Plain(NormFields(fs)[j].val)
    decreases fs, 0
  {
    if fs != [] {
      NormFieldsPlain(fs[1..]);
      if !fs[0].val.Undefined? {
        NormPlain(fs[0].val);
        var r := NormFields(fs);
        assert r[1..] == NormFields(fs[1..]);
        forall j | 0 <= j < |r| ensures Plain(r[j].val) {
          if j > 0 { assert r[j] == NormFields(fs[1..])[j - 1]; }
        }
      }
    }
  }

  /** JSON.parse(JSON.stringify(v)) for any value an object can hold: nothing for
      undefined (the stored text "undefined" is not JSON), otherwise the normal form. */
  lemma StringifyParse(v: Val)
    requires WellFormed(v)
    ensures Parse(Stringify(v)) == if v.Undefined? then None else Some(Norm(v))
  {
    if v.Undefined? {
      ParseUndefinedText();
    } else {
      NormPlain(v);
      ValueRoundTrip(Norm(v), "");
      assert Enc(Norm(v)) + "" == Stringify(v);
    }
  }

  /** The text "undefined" is not JSON. */
  lemma ParseUndefinedText()
    ensures Parse("undefined") == None
  {
    var s := "undefined";
    assert s[0] == 'u' && !IsWs(s[0]);
    assert SkipWs(s) == s;
    assert ParseAt(s) == None;
  }

  /** Reading a property of the object JSON.parse gave back. */
  lemma {:induction false} LookupNormFields(fs: seq<Field>, k: string)
    requires UniqueKeys(fs)
    ensures Lookup(NormFields(fs), k) == if Lookup(fs, k).Undefined? then Undefined else Norm(Lookup(fs, k))
  {
    if fs != [] {
      LookupNormFields(fs[1..], k);
      NormFieldsKeys(fs[1..]);
      var r := NormFields(fs);
      if fs[0].val.Undefined? {
        assert r == NormFields(fs[1..]);
      } else {
        assert r == [Field(fs[0].key, Norm(fs[0].val))] + NormFields(fs[1..]);
        assert r[0].key == fs[0].key && r[1..] == NormFields(fs[1..]);
      }
    }
  }

  /** Normalising keeps truthiness, so `if (user.is_staff)` reads the same after a reload. */
  lemma TruthyNorm(x: Val)
    ensures Truthy(Norm(x)) == Truthy(x)
  {
  }

  /** Normalising a normal form changes nothing: storing a parsed user again is stable. */
  lemma {:induction false} NormIdempotent(v: Val)
    ensures Norm(Norm(v)) == Norm(v)
    decreases v, 1
  {
    match v
    case Arr(items) =>
      var n := Norm(v).items;
      forall j | 0 <= j < |items| ensures Norm(n[j]) == n[j] {
        NormIdempotent(items[j]);
      }
      assert Norm(Norm(v)).items == n;
    case Obj(fs) =>
      NormFieldsIdempotent(fs);
    case _ =>
  }

  lemma {:induction false} NormFieldsIdempotent(fs: seq<Field>)
    ensures NormFields(NormFields(fs)) == NormFields(fs)
    decreases fs, 0
  {
    if fs != [] {
      NormFieldsIdempotent(fs[1..]);
      var r := NormFields(fs);
      if fs[0].val.Undefined? {
        assert r == NormFields(fs[1..]);
      } else {
        var f := Field(fs[0].key, Norm(fs[0].val));
        assert r == [f] + NormFields(fs[1..]);
        assert r[0] == f && r[1..] == NormFields(fs[1..]);
        NormIdempotent(fs[0].val);
        assert NormFields(r) == [Field(f.key, Norm(f.val))] + NormFields(r[1..]);
      }
    }
  }
}
