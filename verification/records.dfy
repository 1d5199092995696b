/**
 * The record handling shared by the create and update routes: the key-by-key sanitiser
 * (`sanitizeFormData` / `sanitizePostData`) and the custom-field object built from the
 * sanitised record, whose keys go through the default camelCase to snake_case rule.
 */
module Records {
  import opened Wrappers
  import opened Text
  import opened Json
  import opened Validator

  // ---------------------------------------------------------------------------------------
  // The snake_case rule

  /** `key.replace(/[A-Z]/g, letter => "_" + letter.toLowerCase())`. */
  function SnakeCase(key: string): (r: string)
    ensures forall i | 0 <= i < |r| :: !IsUpper(r[i])
    ensures |r| >= |key|
  {
    if key == [] then []
    else (if IsUpper(key[0]) then ['_', ToLower(key[0])] else [key[0]]) + SnakeCase(key[1..])
  }

  /** Reading `_x` back as `X`: the inverse of the rule on keys that had no underscore of their own. */
  function CamelCase(s: string): string {
    if s == [] then []
    else if |s| >= 2 && s[0] == '_' && IsLower(s[1]) then [(s[1] as int - 32) as char] + CamelCase(s[2..])
    else [s[0]] + CamelCase(s[1..])
  }

  /** A key without underscores is recovered from its snake_case form, so the rule merges no two
      such keys. */
  lemma {:induction false} CamelOfSnake(key: string)
    requires '_' !in key
    ensures CamelCase(SnakeCase(key)) == key
  {
    if key != [] {
      assert '_' !in key[1..] by {
        assert forall c | c in key[1..] :: c in key;
      }
      CamelOfSnake(key[1..]);
      var head := if IsUpper(key[0]) then ['_', ToLower(key[0])] else [key[0]];
      assert SnakeCase(key) == head + SnakeCase(key[1..]);
      if IsUpper(key[0]) {
        assert (head + SnakeCase(key[1..]))[2..] == SnakeCase(key[1..]);
      } else {
        assert key[0] != '_';
        assert (head + SnakeCase(key[1..]))[1..] == SnakeCase(key[1..]);
      }
    }
  }

  /** A key with no capital letter, such as one already in snake_case, is left as it is. */
  lemma {:induction false} SnakeCaseOfLower(key: string)
    requires forall i | 0 <= i < |key| :: !IsUpper(key[i])
    ensures SnakeCase(key) == key
  {
    if key != [] {
      SnakeCaseOfLower(key[1..]);
      assert key == [key[0]] + key[1..];
    }
  }

  /** The rule works character by character, so it distributes over concatenation. */
  lemma {:induction false} SnakeCaseConcat(a: string, b: string)
    ensures SnakeCase(a + b) == SnakeCase(a) + SnakeCase(b)
  {
    if a == [] {
      assert a + b == b;
    } else {
      assert (a + b)[0] == a[0];
      assert (a + b)[1..] == a[1..] + b;
      SnakeCaseConcat(a[1..], b);
    }
  }

  /** A two-word camelCase key `aXb` becomes `a_xb`. */
  lemma SnakeCaseOfTwoWords(a: string, c: char, b: string)
    requires forall i | 0 <= i < |a| :: !IsUpper(a[i])
    requires forall i | 0 <= i < |b| :: !IsUpper(b[i])
    requires IsUpper(c)
    ensures SnakeCase(a + [c] + b) == a + ['_', ToLower(c)] + b
  {
    SnakeCaseConcat(a + [c], b);
    SnakeCaseConcat(a, [c]);
    SnakeCaseOfLower(a);
    SnakeCaseOfLower(b);
    assert [c][1..] == [];
    assert SnakeCase([c]) == ['_', ToLower(c)];
  }

  // ---------------------------------------------------------------------------------------
  // sanitizeFormData / sanitizePostData

  /** What the sanitiser stores for a value: strings through `sanitizeString`, anything else as is. */
  function CleanValue(v: Value): (c: Value)
    ensures v.Str? <==> c.Str?
    ensures c.Str? ==> NoTags(c.s) && |c.s| <= |v.s|
    ensures !v.Str? ==> c == v
  {
    if v.Str? then Str(SanitizeString(v.s)) else v
  }

  /** The object after the sanitiser has visited the entries of `data` in order: `null` entries
      are skipped, the others assigned under their own key. */
  function Sanitized(data: seq<Prop>): seq<Prop> {
    if data == [] then []
    else
      var last := data[|data| - 1];
      var before := Sanitized(data[..|data| - 1]);
      if last.val.Null? then before else Assign(before, last.key, CleanValue(last.val))
  }

  /** On an object with distinct keys (as `JSON.parse` builds), each key of the sanitised record
      holds the cleaned value of the input's key; `null` values and absent keys are absent. */
  lemma {:induction false} SanitizedLookup(data: seq<Prop>, k: string)
    requires UniqueKeys(data)
    ensures Lookup(Sanitized(data), k) ==
      match Lookup(data, k)
      case None => None
      case Some(v) => if v.Null? then None else Some(CleanValue(v))
  {
    if data != [] {
      var init := data[..|data| - 1];
      var last := data[|data| - 1];
      assert data == init + [last];
      SanitizedLookup(init, k);
      LookupConcat(init, [last], k);
      if k == last.key {
        assert !HasKey(init, k);
        LookupHasKey(init, k);
      }
    }
  }

  /** `sanitizeFormData(formData)` (update route) and `sanitizePostData(data)` (create route),
      which run the same loop. */
  method SanitizeRecord(data: seq<Prop>) returns (sanitized: seq<Prop>)
    ensures sanitized == Sanitized(data)
  {
    sanitized := [];
    var i := 0;
    while i < |data|
      invariant 0 <= i <= |data|
      invariant sanitized == Sanitized(data[..i])
    {
      var key := data[i].key;
      var value := data[i].val;
      assert data[..i + 1][..i] == data[..i];
      if !value.Null? {
        if value.Str? {
          sanitized := Assign(sanitized, key, Str(SanitizeString(value.s)));
        } else {
          sanitized := Assign(sanitized, key, value);
        }
      }
      i := i + 1;
    }
    assert data[..i] == data;
  }

  /** Every string the sanitised record holds is free of tags. */
  lemma {:induction false} SanitizedStringsClean(data: seq<Prop>, k: string)
    ensures Lookup(Sanitized(data), k).Some? && Lookup(Sanitized(data), k).value.Str? ==>
      NoTags(Lookup(Sanitized(data), k).value.s)
  {
    if data != [] {
      var last := data[|data| - 1];
      SanitizedStringsClean(data[..|data| - 1], k);
      if !last.val.Null? && k == last.key {
        assert Lookup(Sanitized(data), k) == Some(CleanValue(last.val));
      }
    }
  }

  // ---------------------------------------------------------------------------------------
  // The sanitiser as JavaScript runs it

  /** An object being filled by `o[k] = v`: its own properties, and the object an assignment to
      `__proto__` made its prototype (`None` while it is `Object.prototype` or `null`). */
  datatype Receiver = Receiver(own: seq<Prop>, proto: Option<seq<Prop>>)

  /** `o[k] = v` as a property set: `__proto__` reaches the inherited setter, which re-parents
      the object on an object or `null` and ignores any other value; other keys are own data. */
  function SetProperty(o: Receiver, k: string, v: Value): (r: Receiver)
    ensures k != "__proto__" ==> r.own == Assign(o.own, k, v) && r.proto == o.proto
    ensures k == "__proto__" ==> r.own == o.own
    ensures k == "__proto__" && v.Obj? ==> r.proto == Some(v.props)
  {
    if k != "__proto__" then Receiver(Assign(o.own, k, v), o.proto)
    else
      match v
      case Obj(props) => Receiver(o.own, Some(props))
      case Null => Receiver(o.own, None)
      case _ => o
  }

  /** `o[k]` for a key `Object.prototype` does not provide: an own property first, then the
      prototype's. */
  function Read(o: Receiver, k: string): (r: Option<Value>)
    ensures Lookup(o.own, k).Some? ==> r == Lookup(o.own, k)
    ensures r.Some? && Lookup(o.own, k).None? ==> o.proto.Some? && r == Lookup(o.proto.value, k)
  {
    if Lookup(o.own, k).Some? then Lookup(o.own, k)
    else if o.proto.Some? then Lookup(o.proto.value, k)
    else None
  }

  /** `sanitizeFormData` / `sanitizePostData` with property-set semantics for `sanitized[key] = value`. */
  function SanitizedAsWritten(data: seq<Prop>): Receiver {
    if data == [] then Receiver([], None)
    else
      var last := data[|data| - 1];
      var before := SanitizedAsWritten(data[..|data| - 1]);
      if last.val.Null? then before else SetProperty(before, last.key, CleanValue(last.val))
  }

  /** Without a `__proto__` entry the two readings of the sanitiser agree. */
  lemma {:induction false} SanitizedAsWrittenAgrees(data: seq<Prop>)
    requires forall i | 0 <= i < |data| :: data[i].key != "__proto__"
    ensures SanitizedAsWritten(data) == Receiver(Sanitized(data), None)
  {
    if data != [] {
      SanitizedAsWrittenAgrees(data[..|data| - 1]);
    }
  }

  /** A record whose `__proto__` entry carries a script-bearing `title`. */
  const BypassTitle: string := "<script>x</script>"
  const BypassRecord: seq<Prop> := [Prop("__proto__", Obj([Prop("title", Str(BypassTitle))]))]

  /** As written, the sanitiser re-parents its output onto the client's object, so reading
      `title` finds a string that never went through `sanitizeString` and that the required check
      accepts; with own-key semantics the same record has no `title` at all. */
  lemma SanitizerBypass()
    ensures Read(SanitizedAsWritten(BypassRecord), "title") == Some(Str(BypassTitle))
    ensures !NoTags(BypassTitle) && !IsMissing(Some(Str(BypassTitle)))
    ensures Lookup(Sanitized(BypassRecord), "title") == None
  {
    var last := BypassRecord[0];
    assert BypassRecord[..0] == [] && CleanValue(last.val) == last.val;
    assert SanitizedAsWritten(BypassRecord) == SetProperty(Receiver([], None), "__proto__", last.val);
    var r := SanitizedAsWritten(BypassRecord);
    assert r == Receiver([], Some([Prop("title", Str(BypassTitle))]));
    assert BypassTitle[0] == '<' && BypassTitle[7] == '>';
    assert BypassTitle[0] != ' ' && !IsWhitespace(BypassTitle[0]);
    assert Trim(BypassTitle) != [];
  }

  // ---------------------------------------------------------------------------------------
  // The custom-field object

  const OwnerField: string := "supabase_user_id"

  /** `post.acf?.supabase_user_id`: the owner recorded on a stored post. */
  function StoredOwner(post: Value): Option<Value> {
    Member(Member(Some(post), "acf"), OwnerField)
  }

  /** The fields after the copy loop: every non-`title`, non-`null` entry under its snake_case key. */
  function AcfEntries(data: seq<Prop>): seq<Prop> {
    if data == [] then []
    else
      var last := data[|data| - 1];
      var before := AcfEntries(data[..|data| - 1]);
      if last.key == "title" || last.val.Null? then before else Assign(before, SnakeCase(last.key), last.val)
  }

  /** The custom fields sent upstream: the copied entries, then the owner set to the caller. */
  function AcfFields(data: seq<Prop>, user: string): (r: seq<Prop>)
    ensures Lookup(r, OwnerField) == Some(Str(user))
  {
    Assign(AcfEntries(data), OwnerField, Str(user))
  }

  /** Every entry is copied under its snake_case key, unless it is `title`, is `null`, or another
      entry's key has the same snake_case form; the owner field is never taken from the record. */
  lemma {:induction false} AcfEntriesLookup(data: seq<Prop>, i: nat)
    requires i < |data|
    requires data[i].key != "title" && !data[i].val.Null?
    requires forall j | 0 <= j < |data| && j != i :: SnakeCase(data[j].key) != SnakeCase(data[i].key)
    ensures Lookup(AcfEntries(data), SnakeCase(data[i].key)) == Some(data[i].val)
  {
    var init := data[..|data| - 1];
    var last := data[|data| - 1];
    if i < |data| - 1 {
      assert init[i] == data[i];
      AcfEntriesLookup(init, i);
    } else {
      AcfEntriesAbsent(init, SnakeCase(data[i].key));
    }
  }

  /** A name that no entry's key turns into is absent from the copied entries. */
  lemma {:induction false} AcfEntriesAbsent(data: seq<Prop>, name: string)
    requires forall j | 0 <= j < |data| :: SnakeCase(data[j].key) != name
    ensures Lookup(AcfEntries(data), name) == None
  {
    if data != [] {
      AcfEntriesAbsent(data[..|data| - 1], name);
    }
  }

  /** No copied key contains a capital letter. */
  lemma AcfKeysLowercase(data: seq<Prop>, name: string)
    requires exists i :: 0 <= i < |name| && IsUpper(name[i])
    ensures Lookup(AcfEntries(data), name) == None
  {
    AcfEntriesAbsent(data, name);
  }

  /** `const acfFields = {}; for (const [key, value] of Object.entries(sanitizedData)) ...;
      acfFields.supabase_user_id = user.id` (the same loop in the create and update routes). */
  method BuildAcfFields(sanitized: seq<Prop>, user: string) returns (acf: seq<Prop>)
    ensures acf == AcfFields(sanitized, user)
  {
    acf := [];
    var i := 0;
    while i < |sanitized|
      invariant 0 <= i <= |sanitized|
      invariant acf == AcfEntries(sanitized[..i])
    {
      var key := sanitized[i].key;
      var value := sanitized[i].val;
      assert sanitized[..i + 1][..i] == sanitized[..i];
      if key != "title" && !value.Null? {
        acf := Assign(acf, SnakeCase(key), value);
      }
      i := i + 1;
    }
    assert sanitized[..i] == sanitized;
    acf := Assign(acf, OwnerField, Str(user));
  }
}
