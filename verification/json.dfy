/**
 * JSON values as the route handlers see them after `request.json()` / `response.json()`,
 * with the JavaScript operations the handlers apply to them: property lookup and assignment
 * on objects (insertion-ordered), object-rest destructuring, truthiness, optional chaining
 * and `String(...)` coercion.  `undefined` is `None` wherever a lookup can miss.
 */
module Json {
  import opened Wrappers
  import opened Text

  datatype Value =
    | Null
    | Bool(b: bool)
    | Num(n: int)
    | Str(s: string)
    | Arr(items: seq<Value>)
    | Obj(props: seq<Prop>)

  /** One own enumerable property, in the order `Object.entries` lists it. */
  datatype Prop = Prop(key: string, val: Value)

  predicate UniqueKeys(ps: seq<Prop>) {
    forall i, j | 0 <= i < j < |ps| :: ps[i].key != ps[j].key
  }

  predicate HasKey(ps: seq<Prop>, k: string) {
    exists i :: 0 <= i < |ps| && ps[i].key == k
  }

  /** `o[k]`: the value stored under `k`, `None` for `undefined`. */
  function Lookup(ps: seq<Prop>, k: string): Option<Value> {
    if ps == [] then None
    else if ps[0].key == k then Some(ps[0].val)
    else Lookup(ps[1..], k)
  }

  /** A lookup misses exactly when no property has the key, and a hit is a stored property. */
  lemma {:induction false} LookupHasKey(ps: seq<Prop>, k: string)
    ensures Lookup(ps, k).None? <==> !HasKey(ps, k)
    ensures Lookup(ps, k).Some? ==> Prop(k, Lookup(ps, k).value) in ps
  {
    if ps != [] && ps[0].key != k {
      LookupHasKey(ps[1..], k);
      assert forall i | 1 <= i < |ps| :: ps[i] == ps[1..][i - 1];
      assert HasKey(ps[1..], k) ==> HasKey(ps, k);
    } else if ps != [] {
      assert ps[0] == Prop(k, ps[0].val);
    }
  }

  /** Lookups in two property lists put one after the other: the first list wins. */
  lemma {:induction false} LookupConcat(a: seq<Prop>, b: seq<Prop>, k: string)
    ensures Lookup(a + b, k) == if Lookup(a, k).Some? then Lookup(a, k) else Lookup(b, k)
  {
    if a == [] {
      assert a + b == b;
    } else {
      assert (a + b)[1..] == a[1..] + b;
      LookupConcat(a[1..], b, k);
    }
  }

  /** `o[k] = v`: overwrites in place when `k` is present, otherwise appends `k` last. */
  function Assign(ps: seq<Prop>, k: string, v: Value): (r: seq<Prop>)
    ensures Lookup(r, k) == Some(v)
    ensures forall k' | k' != k :: Lookup(r, k') == Lookup(ps, k')
    ensures !HasKey(ps, k) ==> r == ps + [Prop(k, v)]
  {
    if ps == [] then [Prop(k, v)]
    else if ps[0].key == k then [Prop(k, v)] + ps[1..]
    else
      var rest := Assign(ps[1..], k, v);
      assert forall i | 1 <= i < |ps| :: ps[i] == ps[1..][i - 1];
      [ps[0]] + rest
  }

  /** Assignment never creates a second property with an existing key. */
  lemma {:induction false} AssignKeepsKeysUnique(ps: seq<Prop>, k: string, v: Value)
    requires UniqueKeys(ps)
    ensures UniqueKeys(Assign(ps, k, v))
  {
    if ps != [] && ps[0].key != k {
      assert forall i | 1 <= i < |ps| :: ps[i] == ps[1..][i - 1];
      AssignKeepsKeysUnique(ps[1..], k, v);
      var rest := Assign(ps[1..], k, v);
      assert !HasKey(ps[1..], ps[0].key);
      LookupHasKey(ps[1..], ps[0].key);
      assert Lookup(rest, ps[0].key) == None;
      LookupHasKey(rest, ps[0].key);
      var r := [ps[0]] + rest;
      assert forall i | 1 <= i < |r| :: r[i] == rest[i - 1];
    } else if ps != [] {
      var r := Assign(ps, k, v);
      assert forall i | 1 <= i < |r| :: r[i] == ps[i];
    }
  }

  /** The properties left in `...rest` after destructuring the keys `taken`, in order. */
  function Without(ps: seq<Prop>, taken: set<string>): (r: seq<Prop>)
    ensures forall k :: Lookup(r, k) == (if k in taken then None else Lookup(ps, k))
    ensures forall i | 0 <= i < |r| :: r[i].key !in taken
    ensures |r| <= |ps|
  {
    if ps == [] then []
    else
      var rest := Without(ps[1..], taken);
      if ps[0].key in taken then rest
      else
        var r := [ps[0]] + rest;
        assert forall i | 1 <= i < |r| :: r[i] == rest[i - 1];
        r
  }

  /** `{ ...ps, [k]: o }` as far as lookups see it: an `undefined` value reads like a missing key. */
  function Put(ps: seq<Prop>, k: string, o: Option<Value>): (r: seq<Prop>)
    ensures Lookup(r, k) == o
  {
    if o.Some? then Assign(ps, k, o.value) else Without(ps, {k})
  }

  /** Putting one key leaves every other key as it was. */
  lemma PutOther(ps: seq<Prop>, k: string, o: Option<Value>, other: string)
    requires other != k
    ensures Lookup(Put(ps, k, o), other) == Lookup(ps, other)
  {
  }

  /** A JSON array of strings. */
  function Strings(ss: seq<string>): (v: Value)
    ensures v.Arr? && |v.items| == |ss| && forall i | 0 <= i < |ss| :: v.items[i] == Str(ss[i])
  {
    if ss == [] then Arr([]) else Arr([Str(ss[0])] + Strings(ss[1..]).items)
  }

  /** JavaScript truthiness of a defined value. */
  predicate Truthy(v: Value) {
    match v
    case Null => false
    case Bool(b) => b
    case Num(n) => n != 0
    case Str(s) => s != []
    case Arr(_) => true
    case Obj(_) => true
  }

  /** Truthiness of a value that may be `undefined`. */
  predicate Present(o: Option<Value>) {
    o.Some? && Truthy(o.value)
  }

  /** `undefined` or `null`. */
  predicate Nullish(o: Option<Value>) {
    o.None? || o.value.Null?
  }

  /** `a || b`. */
  function Or(a: Option<Value>, b: Value): Value {
    if Present(a) then a.value else b
  }

  /** `o?.k` where `k` is not a built-in property of strings or arrays. */
  function Member(o: Option<Value>, k: string): Option<Value> {
    if o.Some? && o.value.Obj? then Lookup(o.value.props, k) else None
  }

  /** `{ k: o, ...rest }` as `JSON.stringify` writes it: a member whose value is `undefined` is left out. */
  function Prepend(k: string, o: Option<Value>, rest: seq<Prop>): (r: seq<Prop>)
    ensures Lookup(r, k) == (if o.Some? then o else Lookup(rest, k))
  {
    if o.Some? then [Prop(k, o.value)] + rest else rest
  }

  /** A member put in front does not hide any other key. */
  lemma PrependOther(k: string, o: Option<Value>, rest: seq<Prop>, other: string)
    requires other != k
    ensures Lookup(Prepend(k, o, rest), other) == Lookup(rest, other)
  {
    if o.Some? {
      assert Prepend(k, o, rest)[1..] == rest;
    }
  }

  /** The object literal `{ k1: v1, ..., kn: vn }` as JSON keeps it: members whose value is
      `undefined` are left out, the others keep their order. */
  function Literal(members: seq<(string, Option<Value>)>): (r: seq<Prop>)
    ensures |r| <= |members|
  {
    if members == [] then [] else Prepend(members[0].0, members[0].1, Literal(members[1..]))
  }

  /** A member of a literal with distinct keys reads back as written; an undefined one reads as missing. */
  lemma {:induction false} LookupLiteral(members: seq<(string, Option<Value>)>, i: nat)
    requires i < |members|
    requires forall j | 0 <= j < |members| && j != i :: members[j].0 != members[i].0
    ensures Lookup(Literal(members), members[i].0) == members[i].1
  {
    var rest := members[1..];
    if i == 0 {
      LookupLiteralAbsent(rest, members[0].0);
    } else {
      LookupLiteral(rest, i - 1);
      PrependOther(members[0].0, members[0].1, Literal(rest), members[i].0);
    }
  }

  /** A key that no member of a literal has is missing from it. */
  lemma {:induction false} LookupLiteralAbsent(members: seq<(string, Option<Value>)>, k: string)
    requires forall i | 0 <= i < |members| :: members[i].0 != k
    ensures Lookup(Literal(members), k) == None
  {
    if members != [] {
      LookupLiteralAbsent(members[1..], k);
      PrependOther(members[0].0, members[0].1, Literal(members[1..]), k);
    }
  }

  function StrOpt(s: Option<string>): Option<Value> {
    if s.Some? then Some(Str(s.value)) else None
  }

  /** `String(v)` for a value that may be `undefined`. */
  function ToJsString(o: Option<Value>): string {
    if o.None? then "undefined" else Stringify(o.value)
  }

  /** `String(v)`: arrays are joined with commas, `null` elements printing as nothing. */
  function Stringify(v: Value): string
    decreases v, 1
  {
    match v
    case Null => "null"
    case Bool(b) => if b then "true" else "false"
    case Num(n) => IntToString(n)
    case Str(s) => s
    case Arr(items) => JoinItems(v, items)
    case Obj(_) => "[object Object]"
  }

  function JoinItems(whole: Value, items: seq<Value>): string
    requires forall i | 0 <= i < |items| :: items[i] < whole
    decreases whole, 0, |items|
  {
    if items == [] then ""
    else
      var first := if items[0].Null? then "" else Stringify(items[0]);
      if |items| == 1 then first else first + "," + JoinItems(whole, items[1..])
  }

  /** `JSON.stringify(v)`, strings written through `Escape`. */
  function Serialize(v: Value): string
    decreases v, 1
  {
    match v
    case Null => "null"
    case Bool(b) => if b then "true" else "false"
    case Num(n) => IntToString(n)
    case Str(s) => Quote(s)
    case Arr(items) => "[" + SerializeItems(v, items) + "]"
    case Obj(props) => "{" + SerializeProps(v, props) + "}"
  }

  function SerializeItems(whole: Value, items: seq<Value>): string
    requires forall i | 0 <= i < |items| :: items[i] < whole
    decreases whole, 0, |items|
  {
    if items == [] then ""
    else if |items| == 1 then Serialize(items[0])
    else Serialize(items[0]) + "," + SerializeItems(whole, items[1..])
  }

  function SerializeProps(whole: Value, props: seq<Prop>): string
    requires forall i | 0 <= i < |props| :: props[i].val < whole
    decreases whole, 0, |props|
  {
    if props == [] then ""
    else
      var first := Quote(props[0].key) + ":" + Serialize(props[0].val);
      if |props| == 1 then first else first + "," + SerializeProps(whole, props[1..])
  }

  function Quote(s: string): string {
    "\"" + Escape(s) + "\""
  }

  /** The characters of a string literal `JSON.stringify` writes for `s`. */
  function Escape(s: string): (e: string)
    ensures forall i | 0 <= i < |e| :: e[i] >= ' '
    ensures |s| <= |e| <= 6 * |s|
  {
    if s == [] then "" else EscapeChar(s[0]) + Escape(s[1..])
  }

  /** One character as `JSON.stringify` writes it inside quotes: `"` and `\` behind a
      backslash, the control characters below U+0020 as `\b`, `\t`, `\n`, `\f`, `\r` or
      `\u00xx` in lower-case hexadecimal, every other character as it is. */
  function EscapeChar(c: char): (e: string)
    ensures 1 <= |e| <= 6
    ensures |e| == 1 <==> c >= ' ' && c != '"' && c != '\\'
    ensures |e| == 1 ==> e == [c]
    ensures |e| > 1 ==> e[0] == '\\'
    ensures forall i | 0 <= i < |e| :: e[i] >= ' '
  {
    if c == '"' || c == '\\' then ['\\', c]
    else if c as int == 8 then "\\b"
    else if c == '\t' then "\\t"
    else if c == '\n' then "\\n"
    else if c as int == 12 then "\\f"
    else if c == '\r' then "\\r"
    else if c < ' ' then "\\u00" + [HexDigit(c as int / 16), HexDigit(c as int % 16)]
    else [c]
  }

  function HexDigit(d: int): (c: char)
    requires 0 <= d < 16
    ensures IsHex(c) && HexValue(c) == d
  {
    if d < 10 then ('0' as int + d) as char else ('a' as int + d - 10) as char
  }

  predicate IsHex(c: char) {
    '0' <= c <= '9' || 'a' <= c <= 'f' || 'A' <= c <= 'F'
  }

  function HexValue(c: char): (d: int)
    requires IsHex(c)
    ensures 0 <= d < 16
  {
    if c <= '9' then c as int - '0' as int
    else if c <= 'F' then c as int - 'A' as int + 10
    else c as int - 'a' as int + 10
  }

  function Cons(c: char, r: Option<string>): Option<string> {
    if r.Some? then Some([c] + r.value) else None
  }

  /** The characters a JSON string literal stands for, as `JSON.parse` reads its body:
      `\"`, `\\`, `\/`, `\b`, `\f`, `\n`, `\r`, `\t` and `\u` with four hexadecimal digits
      (a lone surrogate half is refused here); `None` for any other escape. */
  function Unescape(t: string): Option<string>
    decreases |t|
  {
    if t == [] then Some([])
    else if t[0] != '\\' then Cons(t[0], Unescape(t[1..]))
    else if |t| < 2 then None
    else if t[1] == '"' || t[1] == '\\' || t[1] == '/' then Cons(t[1], Unescape(t[2..]))
    else if t[1] == 'b' then Cons(8 as char, Unescape(t[2..]))
    else if t[1] == 't' then Cons('\t', Unescape(t[2..]))
    else if t[1] == 'n' then Cons('\n', Unescape(t[2..]))
    else if t[1] == 'f' then Cons(12 as char, Unescape(t[2..]))
    else if t[1] == 'r' then Cons('\r', Unescape(t[2..]))
    else if t[1] == 'u' && |t| >= 6 && IsHex(t[2]) && IsHex(t[3]) && IsHex(t[4]) && IsHex(t[5]) then
      var n := ((HexValue(t[2]) * 16 + HexValue(t[3])) * 16 + HexValue(t[4])) * 16 + HexValue(t[5]);
      if 0xD800 <= n < 0xE000 then None else Cons(n as char, Unescape(t[6..]))
    else None
  }

  /** One escaped character reads back as itself, whatever follows it. */
  lemma UnescapeChar(c: char, rest: string)
    ensures Unescape(EscapeChar(c) + rest) == Cons(c, Unescape(rest))
  {
    if c >= ' ' && c != '"' && c != '\\' {
      assert (EscapeChar(c) + rest)[1..] == rest;
    } else if c == '"' || c == '\\' || c as int == 8 || c == '\t' || c == '\n' || c as int == 12 || c == '\r' {
      UnescapeShort(c, rest);
    } else {
      UnescapeControl(c, rest);
    }
  }

  lemma UnescapeShort(c: char, rest: string)
    requires c == '"' || c == '\\' || c as int == 8 || c == '\t' || c == '\n' || c as int == 12 || c == '\r'
    ensures Unescape(EscapeChar(c) + rest) == Cons(c, Unescape(rest))
  {
    var t := EscapeChar(c) + rest;
    assert |EscapeChar(c)| == 2 && t[0] == '\\' && t[1] == EscapeChar(c)[1] && t[2..] == rest;
  }

  lemma UnescapeControl(c: char, rest: string)
    requires c < ' ' && c as int != 8 && c != '\t' && c != '\n' && c as int != 12 && c != '\r'
    ensures Unescape(EscapeChar(c) + rest) == Cons(c, Unescape(rest))
  {
    var t := EscapeChar(c) + rest;
    var hi, lo := c as int / 16, c as int % 16;
    assert EscapeChar(c) == "\\u00" + [HexDigit(hi), HexDigit(lo)];
    assert t[0] == '\\' && t[1] == 'u' && t[2] == '0' && t[3] == '0';
    assert t[4] == HexDigit(hi) && t[5] == HexDigit(lo) && t[6..] == rest;
    assert HexValue('0') == 0;
    assert ((0 * 16 + 0) * 16 + hi) * 16 + lo == c as int;
  }

  /** `JSON.parse` gives back the string `JSON.stringify` wrote. */
  lemma {:induction false} UnescapeEscape(s: string)
    ensures Unescape(Escape(s)) == Some(s)
  {
    if s != [] {
      UnescapeChar(s[0], Escape(s[1..]));
      UnescapeEscape(s[1..]);
      assert [s[0]] + s[1..] == s;
    }
  }
}
