/**
 * `RequestValidator`: the body-shape check, the required-field check, the HTML sanitiser and
 * the slug check.  The two regular expressions of `sanitizeString` are written out as scans:
 * script blocks (`<script` … first `</script>`, letters in either case) are cut first, then
 * every `<` … first following `>` tag.
 */
module Validator {
  import opened Wrappers
  import opened Text
  import opened Json

  datatype JsonCheck = JsonCheck(isValid: bool, error: Option<string>)

  /** `validateJson`: only objects and arrays (`typeof body === "object"`, not `null`) pass. */
  function ValidateJson(body: Value): (r: JsonCheck)
    ensures r.isValid <==> body.Obj? || body.Arr?
    ensures r.isValid <==> r.error.None?
    ensures !r.isValid ==> r.error == Some("Request body must be a valid JSON object")
  {
    if body.Obj? || body.Arr? then JsonCheck(true, None)
    else JsonCheck(false, Some("Request body must be a valid JSON object"))
  }

  // ---------------------------------------------------------------------------------------
  // validateRequiredFields

  /** `undefined`, `null`, or a string that is empty once trimmed. */
  predicate IsMissing(v: Option<Value>) {
    v.None? || v.value.Null? || (v.value.Str? && Trim(v.value.s) == [])
  }

  /** `requiredFields.filter(field => missing(data[field]))`. */
  function MissingFields(data: seq<Prop>, required: seq<string>): (r: seq<string>)
    ensures |r| <= |required|
    ensures forall f :: f in r <==> f in required && IsMissing(Lookup(data, f))
    ensures (forall i | 0 <= i < |required| :: IsMissing(Lookup(data, required[i]))) ==> r == required
  {
    if required == [] then []
    else
      var rest := MissingFields(data, required[1..]);
      assert forall f :: f in required <==> f == required[0] || f in required[1..];
      if IsMissing(Lookup(data, required[0])) then [required[0]] + rest else rest
  }

  /** The filter keeps input order: the missing names of a concatenation are those of its first
      part followed by those of its second. */
  lemma {:induction false} MissingFieldsConcat(data: seq<Prop>, a: seq<string>, b: seq<string>)
    ensures MissingFields(data, a + b) == MissingFields(data, a) + MissingFields(data, b)
  {
    if a == [] {
      assert a + b == b;
    } else {
      assert (a + b)[0] == a[0] && (a + b)[1..] == a[1..] + b;
      MissingFieldsConcat(data, a[1..], b);
    }
  }

  /** A single name is reported exactly when it is missing. */
  lemma MissingFieldsSingle(data: seq<Prop>, f: string)
    ensures MissingFields(data, [f]) == if IsMissing(Lookup(data, f)) then [f] else []
  {
    assert [f][1..] == [];
  }

  datatype RequiredCheck = RequiredCheck(isValid: bool, missingFields: Option<seq<string>>)

  /** `validateRequiredFields(data, requiredFields)`: valid exactly when no required field is missing;
      `missingFields` is left undefined when the list would be empty. */
  function ValidateRequiredFields(data: seq<Prop>, required: seq<string>): (r: RequiredCheck)
    ensures r.isValid <==> forall i | 0 <= i < |required| :: !IsMissing(Lookup(data, required[i]))
    ensures r.missingFields.None? <==> r.isValid
    ensures r.missingFields.Some? ==>
      r.missingFields.value != [] && (forall f :: f in r.missingFields.value <==> f in required && IsMissing(Lookup(data, f)))
    ensures r.missingFields.Some? ==> r.missingFields.value == MissingFields(data, required)
  {
    var missing := MissingFields(data, required);
    assert missing == [] <==> forall i | 0 <= i < |required| :: !IsMissing(Lookup(data, required[i])) by {
      if missing != [] {
        assert missing[0] in missing;
      }
    }
    RequiredCheck(|missing| == 0, if |missing| > 0 then Some(missing) else None)
  }

  // ---------------------------------------------------------------------------------------
  // sanitizeString

  const ScriptOpen: string := "<script"
  const ScriptClose: string := "</script>"

  predicate StartsWithIgnoreCase(s: string, p: string) {
    |p| <= |s| && EqualsIgnoreCase(s[..|p|], p)
  }

  /** `p` occurs at position `j` of `s`, ASCII letters compared in either case. */
  predicate MatchesAt(s: string, p: string, j: int) {
    0 <= j && j + |p| <= |s| && EqualsIgnoreCase(s[j..j + |p|], p)
  }

  /** The first position at or after `from` where `p` occurs in `s`, ASCII letters compared in either case. */
  function FindIgnoreCase(s: string, p: string, from: nat): (r: Option<nat>)
    requires from <= |s|
    ensures r.Some? ==> from <= r.value && MatchesAt(s, p, r.value)
    ensures r.Some? ==> forall j | from <= j < r.value :: !MatchesAt(s, p, j)
    ensures r.None? ==> forall j | from <= j <= |s| :: !MatchesAt(s, p, j)
    decreases |s| - from
  {
    if MatchesAt(s, p, from) then Some(from)
    else if from == |s| then None
    else FindIgnoreCase(s, p, from + 1)
  }

  /** `<script` followed by a word boundary: the end of the text or a character outside `\w`. */
  predicate OpensScript(s: string) {
    StartsWithIgnoreCase(s, ScriptOpen) && (|s| == |ScriptOpen| || !IsWordChar(s[|ScriptOpen|]))
  }

  /** `.replace(/<script\b[^<]*(?:(?!<\/script>)<[^<]*)*<\/script>/gi, "")`: from each opening that has a
      closing after it, everything up to and including the first closing is cut. */
  function RemoveScripts(s: string): (r: string)
    ensures |r| <= |s|
    ensures forall c | c in r :: c in s
    decreases |s|
  {
    if s == [] then []
    else
      var close := if OpensScript(s) then FindIgnoreCase(s, ScriptClose, |ScriptOpen|) else None;
      if close.Some? then
        var rest := RemoveScripts(s[close.value + |ScriptClose|..]);
        assert forall c | c in rest :: c in s;
        rest
      else
        var rest := RemoveScripts(s[1..]);
        assert forall c | c in rest :: c in s;
        [s[0]] + rest
  }

  /** No `<` is followed, anywhere later, by a `>`: nothing tag-shaped is left. */
  predicate NoTags(s: string) {
    forall i, j | 0 <= i < j < |s| :: !(s[i] == '<' && s[j] == '>')
  }

  /** `.replace(/<[^>]*>/g, "")`: from each `<` that has a `>` after it, everything up to the first such `>` is cut. */
  function RemoveTags(s: string): (r: string)
    ensures |r| <= |s|
    ensures forall c | c in r :: c in s
    decreases |s|
  {
    if s == [] then []
    else
      var close := if s[0] == '<' then IndexOf(s[1..], ">") else None;
      if close.Some? then
        var rest := RemoveTags(s[1 + close.value + 1..]);
        assert forall c | c in rest :: c in s;
        rest
      else
        var rest := RemoveTags(s[1..]);
        assert forall c | c in rest :: c in s;
        [s[0]] + rest
  }

  /** Whatever the input, the output of the tag pass holds no `<` with a `>` after it. */
  lemma {:induction false} RemoveTagsNoTags(s: string)
    ensures NoTags(RemoveTags(s))
    decreases |s|
  {
    if s != [] {
      var close := if s[0] == '<' then IndexOf(s[1..], ">") else None;
      if close.Some? {
        RemoveTagsNoTags(s[1 + close.value + 1..]);
      } else {
        var rest := RemoveTags(s[1..]);
        RemoveTagsNoTags(s[1..]);
        if s[0] == '<' {
          IndexOfAbsent(s[1..], '>');
        }
        var r := [s[0]] + rest;
        assert r == RemoveTags(s);
        assert forall j | 1 <= j < |r| :: r[j] == rest[j - 1];
      }
    }
  }

  /** `RequestValidator.sanitizeString`: trim, cut script blocks, cut tags. */
  function SanitizeString(input: string): (r: string)
    ensures |r| <= |input|
    ensures forall c | c in r :: c in input
    ensures NoTags(r)
  {
    RemoveTagsNoTags(RemoveScripts(Trim(input)));
    RemoveTags(RemoveScripts(Trim(input)))
  }

  /** Text without `<` is only trimmed. */
  lemma SanitizePlainText(s: string)
    requires '<' !in s
    ensures SanitizeString(s) == Trim(s)
  {
    RemoveScriptsPlain(Trim(s));
    RemoveTagsPlain(Trim(s));
  }

  lemma {:induction false} RemoveScriptsPlain(s: string)
    requires '<' !in s
    ensures RemoveScripts(s) == s
    decreases |s|
  {
    if s != [] {
      assert s[0] != '<' && ScriptOpen[0] == '<';
      assert ToLower(s[0]) != ToLower(ScriptOpen[0]);
      assert |s| >= |ScriptOpen| ==> s[..|ScriptOpen|][0] == s[0];
      assert !OpensScript(s);
      assert s == [s[0]] + s[1..];
      RemoveScriptsPlain(s[1..]);
    }
  }

  lemma {:induction false} RemoveTagsPlain(s: string)
    requires '<' !in s
    ensures RemoveTags(s) == s
    decreases |s|
  {
    if s != [] {
      assert s == [s[0]] + s[1..];
      RemoveTagsPlain(s[1..]);
    }
  }

  // ---------------------------------------------------------------------------------------
  // validateSlug

  predicate IsSlugChar(c: char) {
    IsLower(c) || IsDigit(c) || c == '_' || c == '-'
  }

  /** `/^[a-z0-9_-]+$/.test(slug)`. */
  predicate ValidateSlug(slug: string) {
    slug != [] && forall i | 0 <= i < |slug| :: IsSlugChar(slug[i])
  }

  /** An accepted slug cannot add a path segment, a query or a fragment to the CMS URL it is put in. */
  lemma SlugIsPathSafe(slug: string)
    requires ValidateSlug(slug)
    ensures '/' !in slug && '?' !in slug && '#' !in slug && '.' !in slug && '%' !in slug
  {
    forall c | c in slug
      ensures c != '/' && c != '?' && c != '#' && c != '.' && c != '%'
    {
      var i :| 0 <= i < |slug| && slug[i] == c;
      assert IsSlugChar(slug[i]);
    }
  }

  /** The test runs on `String(slug)`, so a missing slug reads as the word "undefined" and passes. */
  lemma UndefinedSlugAccepted()
    ensures ValidateSlug(ToJsString(None))
  {
  }
}
