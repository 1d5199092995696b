/**
 * The per-content-type validators of the two write routes: `validateFormData` (update route)
 * and `validatePostData` (create route).  Each looks the content type up in its own schema
 * table, reports the missing required fields, then every string field longer than its limit.
 */
module FormValidation {
  import opened Wrappers
  import opened Text
  import opened Json
  import opened Validator
  import Http

  /** Which route's table and wording. */
  datatype Form = UpdateForm | CreateForm

  /** The parts of a schema the validators read (the `optional` lists are never read). */
  datatype Schema = Schema(required: seq<string>, maxLengths: seq<(string, nat)>)

  /** The route's schema table: `FIELD_VALIDATION_SCHEMAS` for the update route and
      `VALIDATION_SCHEMAS`, with fewer limits, for the create route. */
  function Table(form: Form): seq<(string, Schema)> {
    match form
    case UpdateForm => [
      ("cagar_budaya", Schema(["title"],
        [("title", 200), ("lokasi", 500), ("nilai_sejarah", 2000), ("usia_bangunan", 100), ("kondisi_bangunan", 1000)])),
      ("kesenian", Schema(["title"], [("title", 200), ("daerah_asal", 100), ("jenis_kesenian", 100), ("deskripsi", 2000)])),
      ("tokoh", Schema(["title"],
        [("title", 200), ("tempat_lahir", 100), ("tanggal_lahir", 50), ("profesi", 100), ("kontribusi", 2000)]))]
    case CreateForm => [
      ("cagar_budaya", Schema(["title"], [("title", 200), ("lokasi", 500), ("nilai_sejarah", 2000)])),
      ("kesenian", Schema(["title"], [("title", 200), ("daerah_asal", 100), ("deskripsi", 2000)])),
      ("tokoh", Schema(["title"], [("title", 200), ("tempat_lahir", 100), ("kontribusi", 2000)]))]
  }

  /** `table[slug]` over the table's own entries; `InheritedNames` covers the names found on the
      prototype chain instead. */
  function Find(table: seq<(string, Schema)>, slug: string): Option<Schema> {
    if table == [] then None else if table[0].0 == slug then Some(table[0].1) else Find(table[1..], slug)
  }

  function Schemas(form: Form, slug: string): Option<Schema> {
    Find(Table(form), slug)
  }

  /** The names every object inherits from `Object.prototype`.  `table[slug]` finds each of them
      as well: a function, or for `__proto__` the prototype itself, truthy and with no `required`. */
  const InheritedNames: set<string> := {
    "__proto__", "constructor", "__defineGetter__", "__defineSetter__", "__lookupGetter__",
    "__lookupSetter__", "hasOwnProperty", "isPrototypeOf", "propertyIsEnumerable",
    "toLocaleString", "toString", "valueOf"}

  /** The table's own content types are exactly the three slugs, none of them inherited. */
  lemma OwnNames(form: Form, slug: string)
    ensures Schemas(form, slug).Some? <==> slug in {"cagar_budaya", "kesenian", "tokoh"}
    ensures Schemas(form, slug).Some? ==> slug !in InheritedNames
  {
    var t := Table(form);
    assert t[0].0 == "cagar_budaya" && t[1].0 == "kesenian" && t[2].0 == "tokoh";
    assert t[1..][1..] == t[2..] && t[2..][1..] == [];
    assert Find(t[2..], slug).Some? <==> slug == "tokoh";
    assert Find(t[1..], slug).Some? <==> slug == "kesenian" || Find(t[2..], slug).Some?;
    assert Find(t, slug).Some? <==> slug == "cagar_budaya" || Find(t[1..], slug).Some?;
  }

  function UnknownMessage(form: Form, slug: string): string {
    match form
    case UpdateForm => "Tipe konten '" + slug + "' tidak dikenali."
    case CreateForm => "Unsupported content type: " + slug
  }

  function RequiredMessage(form: Form, field: string): string {
    match form
    case UpdateForm => "Field '" + field + "' wajib diisi."
    case CreateForm => "Field '" + field + "' is required"
  }

  function TooLongMessage(form: Form, field: string, max: nat): string {
    match form
    case UpdateForm => "Field '" + field + "' tidak boleh lebih dari " + NatToString(max) + " karakter."
    case CreateForm => "Field '" + field + "' must not exceed " + NatToString(max) + " characters"
  }

  /** The update route's test: `!value || (typeof value === "string" && value.trim() === "")`. */
  predicate Unfilled(o: Option<Value>) {
    !Present(o) || (o.value.Str? && Trim(o.value.s) == [])
  }

  /** `value && typeof value === "string" && value.length > max`. */
  predicate TooLong(o: Option<Value>, max: nat) {
    Present(o) && o.value.Str? && Utf16Length(o.value.s) > max
  }

  /** One message per unfilled required field, in schema order. */
  function RequiredErrors(required: seq<string>, data: seq<Prop>): seq<string> {
    if required == [] then []
    else
      var field := required[|required| - 1];
      RequiredErrors(required[..|required| - 1], data)
      + (if Unfilled(Lookup(data, field)) then [RequiredMessage(UpdateForm, field)] else [])
  }

  /** One message per over-long string field, in the order of the limits table. */
  function LengthErrors(form: Form, limits: seq<(string, nat)>, data: seq<Prop>): seq<string> {
    if limits == [] then []
    else
      var (field, max) := limits[|limits| - 1];
      LengthErrors(form, limits[..|limits| - 1], data)
      + (if TooLong(Lookup(data, field), max) then [TooLongMessage(form, field, max)] else [])
  }

  /** The errors the update validator reports once the schema is found. */
  function FormSchemaErrors(schema: Schema, data: seq<Prop>): seq<string> {
    RequiredErrors(schema.required, data) + LengthErrors(UpdateForm, schema.maxLengths, data)
  }

  /** The errors `validateFormData(slug, data)` reports for a slug that is not inherited. */
  function FormErrors(slug: string, data: seq<Prop>): seq<string> {
    match Schemas(UpdateForm, slug)
    case None => [UnknownMessage(UpdateForm, slug)]
    case Some(schema) => FormSchemaErrors(schema, data)
  }

  /** How a validator call ends: the `{ isValid, errors }` it returns, or the `TypeError` it throws. */
  datatype Verdict = Verdict(isValid: bool, errors: seq<string>) | Threw(message: string)

  /** `validateFormData(slug, data)`: an inherited name gets past `!schema`, and iterating over
      its missing `required` list throws. */
  function FormVerdict(slug: string, data: seq<Prop>): Verdict {
    if slug in InheritedNames then Threw(Http.NotIterable("schema.required"))
    else
      var errors := FormErrors(slug, data);
      Verdict(errors == [], errors)
  }

  function RequiredMessages(fields: seq<string>): (r: seq<string>)
    ensures |r| == |fields|
    ensures forall i | 0 <= i < |fields| :: r[i] == RequiredMessage(CreateForm, fields[i])
  {
    if fields == [] then [] else [RequiredMessage(CreateForm, fields[0])] + RequiredMessages(fields[1..])
  }

  /** The errors the create validator reports once the schema is found: the required check is
      `validateRequiredFields`. */
  function PostSchemaErrors(schema: Schema, data: seq<Prop>): seq<string> {
    var check := ValidateRequiredFields(data, schema.required);
    (if !check.isValid && check.missingFields.Some? then RequiredMessages(check.missingFields.value) else [])
    + LengthErrors(CreateForm, schema.maxLengths, data)
  }

  /** The errors `validatePostData(slug, data)` reports for a slug that is not inherited. */
  function PostErrors(slug: string, data: seq<Prop>): seq<string> {
    match Schemas(CreateForm, slug)
    case None => [UnknownMessage(CreateForm, slug)]
    case Some(schema) => PostSchemaErrors(schema, data)
  }

  /** `validatePostData(slug, data)`: an inherited name gets past `!schema`, and
      `validateRequiredFields(data, undefined)` then throws on `undefined.filter`. */
  function PostVerdict(slug: string, data: seq<Prop>): Verdict {
    if slug in InheritedNames then Threw(Http.UndefinedRead("filter"))
    else
      var errors := PostErrors(slug, data);
      Verdict(errors == [], errors)
  }

  lemma {:induction false} RequiredErrorsEmpty(required: seq<string>, data: seq<Prop>)
    ensures RequiredErrors(required, data) == [] <==>
      forall i | 0 <= i < |required| :: !Unfilled(Lookup(data, required[i]))
  {
    if required != [] {
      var init := required[..|required| - 1];
      RequiredErrorsEmpty(init, data);
      assert forall i | 0 <= i < |init| :: init[i] == required[i];
    }
  }

  lemma {:induction false} LengthErrorsEmpty(form: Form, limits: seq<(string, nat)>, data: seq<Prop>)
    ensures LengthErrors(form, limits, data) == [] <==>
      forall i | 0 <= i < |limits| :: !TooLong(Lookup(data, limits[i].0), limits[i].1)
  {
    if limits != [] {
      var init := limits[..|limits| - 1];
      LengthErrorsEmpty(form, init, data);
      assert forall i | 0 <= i < |init| :: init[i] == limits[i];
    }
  }

  /** The update validator throws exactly on an inherited name, and accepts exactly a known content
      type whose required fields are all filled and none of whose limited string fields is longer
      than its limit in UTF-16 units. */
  lemma FormErrorsEmpty(slug: string, data: seq<Prop>)
    ensures FormVerdict(slug, data).Threw? <==> slug in InheritedNames
    ensures FormVerdict(slug, data) == Verdict(true, []) <==> FormErrors(slug, data) == [] && slug !in InheritedNames
    ensures FormErrors(slug, data) == [] <==>
      Schemas(UpdateForm, slug).Some?
      && (forall i | 0 <= i < |Schemas(UpdateForm, slug).value.required| ::
            !Unfilled(Lookup(data, Schemas(UpdateForm, slug).value.required[i])))
      && (forall i | 0 <= i < |Schemas(UpdateForm, slug).value.maxLengths| ::
            !TooLong(Lookup(data, Schemas(UpdateForm, slug).value.maxLengths[i].0),
                     Schemas(UpdateForm, slug).value.maxLengths[i].1))
  {
    OwnNames(UpdateForm, slug);
    if Schemas(UpdateForm, slug).Some? {
      var schema := Schemas(UpdateForm, slug).value;
      RequiredErrorsEmpty(schema.required, data);
      LengthErrorsEmpty(UpdateForm, schema.maxLengths, data);
    }
  }

  /** The create validator throws exactly on an inherited name, and accepts exactly a known content
      type with no missing required field and no limited string field longer than its limit in
      UTF-16 units. */
  lemma PostErrorsEmpty(slug: string, data: seq<Prop>)
    ensures PostVerdict(slug, data).Threw? <==> slug in InheritedNames
    ensures PostVerdict(slug, data) == Verdict(true, []) <==> PostErrors(slug, data) == [] && slug !in InheritedNames
    ensures PostErrors(slug, data) == [] <==>
      Schemas(CreateForm, slug).Some?
      && (forall i | 0 <= i < |Schemas(CreateForm, slug).value.required| ::
            !IsMissing(Lookup(data, Schemas(CreateForm, slug).value.required[i])))
      && (forall i | 0 <= i < |Schemas(CreateForm, slug).value.maxLengths| ::
            !TooLong(Lookup(data, Schemas(CreateForm, slug).value.maxLengths[i].0),
                     Schemas(CreateForm, slug).value.maxLengths[i].1))
  {
    OwnNames(CreateForm, slug);
    if Schemas(CreateForm, slug).Some? {
      var schema := Schemas(CreateForm, slug).value;
      LengthErrorsEmpty(CreateForm, schema.maxLengths, data);
    }
  }

  /** Every unfilled required field is reported, by name. */
  lemma {:induction false} RequiredErrorsMention(required: seq<string>, data: seq<Prop>, i: nat)
    requires i < |required| && Unfilled(Lookup(data, required[i]))
    ensures RequiredMessage(UpdateForm, required[i]) in RequiredErrors(required, data)
  {
    var init := required[..|required| - 1];
    if i < |required| - 1 {
      assert init[i] == required[i];
      RequiredErrorsMention(init, data, i);
    }
  }

  /** Every over-long limited string field is reported, by name and limit. */
  lemma {:induction false} LengthErrorsMention(form: Form, limits: seq<(string, nat)>, data: seq<Prop>, i: nat)
    requires i < |limits| && TooLong(Lookup(data, limits[i].0), limits[i].1)
    ensures TooLongMessage(form, limits[i].0, limits[i].1) in LengthErrors(form, limits, data)
  {
    var init := limits[..|limits| - 1];
    if i < |limits| - 1 {
      assert init[i] == limits[i];
      LengthErrorsMention(form, init, data, i);
    }
  }

  /** `for (const [field, maxLength] of Object.entries(schema.maxLengths)) if (...) errors.push(...)`,
      the loop both validators end with. */
  method PushLengthErrors(form: Form, limits: seq<(string, nat)>, data: seq<Prop>, errors0: seq<string>)
    returns (errors: seq<string>)
    ensures errors == errors0 + LengthErrors(form, limits, data)
  {
    errors := errors0;
    var j := 0;
    while j < |limits|
      invariant 0 <= j <= |limits|
      invariant errors == errors0 + LengthErrors(form, limits[..j], data)
    {
      var (field, maxLength) := limits[j];
      assert limits[..j + 1][..j] == limits[..j];
      var value := Lookup(data, field);
      if Present(value) && value.value.Str? && Utf16Length(value.value.s) > maxLength {
        errors := errors + [TooLongMessage(form, field, maxLength)];
      }
      j := j + 1;
    }
    assert limits[..j] == limits;
  }

  /** The checks of `validateFormData` once the schema is found: the required loop, then the
      length loop. */
  method CheckFormData(schema: Schema, formData: seq<Prop>) returns (errors: seq<string>)
    ensures errors == FormSchemaErrors(schema, formData)
  {
    errors := [];
    var required := schema.required;
    var i := 0;
    while i < |required|
      invariant 0 <= i <= |required|
      invariant errors == RequiredErrors(required[..i], formData)
    {
      var field := required[i];
      assert required[..i + 1][..i] == required[..i];
      var value := Lookup(formData, field);
      if !Present(value) || (value.value.Str? && Trim(value.value.s) == []) {
        errors := errors + [RequiredMessage(UpdateForm, field)];
      }
      i := i + 1;
    }
    assert required[..i] == required;
    errors := PushLengthErrors(UpdateForm, schema.maxLengths, formData, errors);
  }

  /** `validateFormData(cptSlug, formData)`: its `{ isValid, errors }`, or the `TypeError` thrown
      for an inherited name. */
  method ValidateFormData(cptSlug: string, formData: seq<Prop>) returns (result: Verdict)
    ensures result == FormVerdict(cptSlug, formData)
    ensures result.Threw? <==> cptSlug in InheritedNames
    ensures result.Verdict? ==> (result.isValid <==> result.errors == [])
    ensures result.Verdict? && Schemas(UpdateForm, cptSlug).None? ==>
      result == Verdict(false, [UnknownMessage(UpdateForm, cptSlug)])
  {
    OwnNames(UpdateForm, cptSlug);
    var schema := Schemas(UpdateForm, cptSlug);
    if schema.None? {
      if cptSlug in InheritedNames {
        return Threw(Http.NotIterable("schema.required"));
      }
      return Verdict(false, [UnknownMessage(UpdateForm, cptSlug)]);
    }
    var errors := CheckFormData(schema.value, formData);
    result := Verdict(|errors| == 0, errors);
  }

  /** The checks of `validatePostData` once the schema is found. */
  method CheckPostData(schema: Schema, data: seq<Prop>) returns (errors: seq<string>)
    ensures errors == PostSchemaErrors(schema, data)
  {
    errors := [];
    var requiredValidation := ValidateRequiredFields(data, schema.required);
    if !requiredValidation.isValid && requiredValidation.missingFields.Some? {
      errors := errors + RequiredMessages(requiredValidation.missingFields.value);
    }
    errors := PushLengthErrors(CreateForm, schema.maxLengths, data, errors);
  }

  /** `validatePostData(cptSlug, data)`: its `{ isValid, errors }`, or the `TypeError` thrown for
      an inherited name. */
  method ValidatePostData(cptSlug: string, data: seq<Prop>) returns (result: Verdict)
    ensures result == PostVerdict(cptSlug, data)
    ensures result.Threw? <==> cptSlug in InheritedNames
    ensures result.Verdict? ==> (result.isValid <==> result.errors == [])
    ensures result.Verdict? && Schemas(CreateForm, cptSlug).None? ==>
      result == Verdict(false, [UnknownMessage(CreateForm, cptSlug)])
  {
    OwnNames(CreateForm, cptSlug);
    var schema := Schemas(CreateForm, cptSlug);
    if schema.None? {
      if cptSlug in InheritedNames {
        return Threw(Http.UndefinedRead("filter"));
      }
      return Verdict(false, [UnknownMessage(CreateForm, cptSlug)]);
    }
    var errors := CheckPostData(schema.value, data);
    result := Verdict(|errors| == 0, errors);
  }
}
