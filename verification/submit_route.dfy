/**
 * The public submission route (`POST /api/submit-cagar-budaya`): copy the recognised form
 * fields of the request body into a custom-field object under their snake_case names, fetch a
 * CMS token with the server's own credentials, and create a `pending` heritage record.  The
 * caller is never authenticated: the owner recorded is whatever `userId` the body names.
 * Every thrown error ends in a 500 `{ message }`.
 */
module SubmitRoute {
  import opened Wrappers
  import opened Text
  import opened Json
  import opened Http
  import opened Records
  import WpOptimizer

  const CredentialsMessage: string := "Kredensial WordPress tidak ditemukan di environment variables."
  const TokenFailedPrefix: string := "Gagal mendapatkan token otentikasi. Detail: "
  const SendFailedPrefix: string := "Gagal mengirim data ke WordPress: "
  const SuccessMessage: string := "Data berhasil dikirim untuk ditinjau!"
  const FallbackMessage: string := "Terjadi kesalahan pada server"
  const PendingStatus: string := "pending"
  const SubmitPath: string := "/wp/v2/cagar_budaya"

  /** One conditional copy `if (body.key) acfFields.name = body.key`. */
  datatype Copy = Copy(key: string, name: string)

  /** The copies, in the handler's order: the form fields, then the submitter's id. */
  const Fields: seq<Copy> := [
    Copy("lokasi", "lokasi"),
    Copy("nilaiSejarah", "nilai_sejarah"),
    Copy("nilaiBudaya", "nilai_budaya"),
    Copy("sumberInformasi", "sumber_informasi"),
    Copy("jenisBangunan", "jenis_bangunan"),
    Copy("usiaBangunan", "usia_bangunan"),
    Copy("kondisiBangunan", "kondisi_bangunan"),
    Copy("nilaiArsitektur", "nilai_arsitektur"),
    Copy("jenisSitus", "jenis_situs"),
    Copy("luasSitus", "luas_situs"),
    Copy("kondisiSitus", "kondisi_situs"),
    Copy("jenisKawasan", "jenis_kawasan"),
    Copy("luasKawasan", "luas_kawasan"),
    Copy("kondisiKawasan", "kondisi_kawasan"),
    Copy("jenisBenda", "jenis_benda"),
    Copy("deskripsiBenda", "deskripsi_benda"),
    Copy("tahunPenemuan", "tahun_penemuan"),
    Copy("kondisiBenda", "kondisi_benda"),
    Copy("jenisStruktur", "jenis_struktur"),
    Copy("deskripsiStruktur", "deskripsi_struktur"),
    Copy("tahunDibangun", "tahun_dibangun"),
    Copy("kondisiStruktur", "kondisi_struktur"),
    Copy("userId", "supabase_user_id")
  ]

  // ---------------------------------------------------------------------------------------
  // The field table

  predicate Lowered(s: string) {
    forall i | 0 <= i < |s| :: !IsUpper(s[i])
  }

  /** `f` copies the two-word camelCase key `a` + `c` + `b` into `a` + `_` + lower-case `c` + `b`. */
  predicate TwoWords(f: Copy, a: string, c: char, b: string) {
    Lowered(a) && Lowered(b) && IsUpper(c) && f.key == a + [c] + b && f.name == a + ['_', ToLower(c)] + b
  }

  /** The words of entries 1 to 3 of the table. */
  lemma Words1()
    ensures TwoWords(Copy("nilaiSejarah", "nilai_sejarah"), "nilai", 'S', "ejarah")
    ensures TwoWords(Copy("nilaiBudaya", "nilai_budaya"), "nilai", 'B', "udaya")
    ensures TwoWords(Copy("sumberInformasi", "sumber_informasi"), "sumber", 'I', "nformasi")
  {
  }

  /** The words of entries 4 to 6 of the table. */
  lemma Words2()
    ensures TwoWords(Copy("jenisBangunan", "jenis_bangunan"), "jenis", 'B', "angunan")
    ensures TwoWords(Copy("usiaBangunan", "usia_bangunan"), "usia", 'B', "angunan")
    ensures TwoWords(Copy("kondisiBangunan", "kondisi_bangunan"), "kondisi", 'B', "angunan")
  {
  }

  /** The words of entries 7 to 9 of the table. */
  lemma Words3()
    ensures TwoWords(Copy("nilaiArsitektur", "nilai_arsitektur"), "nilai", 'A', "rsitektur")
    ensures TwoWords(Copy("jenisSitus", "jenis_situs"), "jenis", 'S', "itus")
    ensures TwoWords(Copy("luasSitus", "luas_situs"), "luas", 'S', "itus")
  {
  }

  /** The words of entries 10 to 12 of the table. */
  lemma Words4()
    ensures TwoWords(Copy("kondisiSitus", "kondisi_situs"), "kondisi", 'S', "itus")
    ensures TwoWords(Copy("jenisKawasan", "jenis_kawasan"), "jenis", 'K', "awasan")
    ensures TwoWords(Copy("luasKawasan", "luas_kawasan"), "luas", 'K', "awasan")
  {
  }

  /** The words of entries 13 to 15 of the table. */
  lemma Words5()
    ensures TwoWords(Copy("kondisiKawasan", "kondisi_kawasan"), "kondisi", 'K', "awasan")
    ensures TwoWords(Copy("jenisBenda", "jenis_benda"), "jenis", 'B', "enda")
    ensures TwoWords(Copy("deskripsiBenda", "deskripsi_benda"), "deskripsi", 'B', "enda")
  {
  }

  /** The words of entries 16 to 18 of the table. */
  lemma Words6()
    ensures TwoWords(Copy("tahunPenemuan", "tahun_penemuan"), "tahun", 'P', "enemuan")
    ensures TwoWords(Copy("kondisiBenda", "kondisi_benda"), "kondisi", 'B', "enda")
    ensures TwoWords(Copy("jenisStruktur", "jenis_struktur"), "jenis", 'S', "truktur")
  {
  }

  /** The words of entries 19 to 21 of the table. */
  lemma Words7()
    ensures TwoWords(Copy("deskripsiStruktur", "deskripsi_struktur"), "deskripsi", 'S', "truktur")
    ensures TwoWords(Copy("tahunDibangun", "tahun_dibangun"), "tahun", 'D', "ibangun")
    ensures TwoWords(Copy("kondisiStruktur", "kondisi_struktur"), "kondisi", 'S', "truktur")
  {
  }

  /** Entries 1 to 7 of the table have two-word keys. */
  lemma FirstWords(i: nat)
    requires 1 <= i < 8
    ensures exists a, c, b :: TwoWords(Fields[i], a, c, b)
  {
    Words1();
    Words2();
    Words3();
    if i == 1 {
      assert Fields[1] == Copy("nilaiSejarah", "nilai_sejarah");
    } else if i == 2 {
      assert Fields[2] == Copy("nilaiBudaya", "nilai_budaya");
    } else if i == 3 {
      assert Fields[3] == Copy("sumberInformasi", "sumber_informasi");
    } else if i == 4 {
      assert Fields[4] == Copy("jenisBangunan", "jenis_bangunan");
    } else if i == 5 {
      assert Fields[5] == Copy("usiaBangunan", "usia_bangunan");
    } else if i == 6 {
      assert Fields[6] == Copy("kondisiBangunan", "kondisi_bangunan");
    } else {
      assert Fields[7] == Copy("nilaiArsitektur", "nilai_arsitektur");
    }
  }

  /** Entries 8 to 14 of the table have two-word keys. */
  lemma MiddleWords(i: nat)
    requires 8 <= i < 15
    ensures exists a, c, b :: TwoWords(Fields[i], a, c, b)
  {
    Words3();
    Words4();
    Words5();
    if i == 8 {
      assert Fields[8] == Copy("jenisSitus", "jenis_situs");
    } else if i == 9 {
      assert Fields[9] == Copy("luasSitus", "luas_situs");
    } else if i == 10 {
      assert Fields[10] == Copy("kondisiSitus", "kondisi_situs");
    } else if i == 11 {
      assert Fields[11] == Copy("jenisKawasan", "jenis_kawasan");
    } else if i == 12 {
      assert Fields[12] == Copy("luasKawasan", "luas_kawasan");
    } else if i == 13 {
      assert Fields[13] == Copy("kondisiKawasan", "kondisi_kawasan");
    } else {
      assert Fields[14] == Copy("jenisBenda", "jenis_benda");
    }
  }

  /** Entries 15 to 21 of the table have two-word keys. */
  lemma LastWords(i: nat)
    requires 15 <= i < 22
    ensures exists a, c, b :: TwoWords(Fields[i], a, c, b)
  {
    Words5();
    Words6();
    Words7();
    if i == 15 {
      assert Fields[15] == Copy("deskripsiBenda", "deskripsi_benda");
    } else if i == 16 {
      assert Fields[16] == Copy("tahunPenemuan", "tahun_penemuan");
    } else if i == 17 {
      assert Fields[17] == Copy("kondisiBenda", "kondisi_benda");
    } else if i == 18 {
      assert Fields[18] == Copy("jenisStruktur", "jenis_struktur");
    } else if i == 19 {
      assert Fields[19] == Copy("deskripsiStruktur", "deskripsi_struktur");
    } else if i == 20 {
      assert Fields[20] == Copy("tahunDibangun", "tahun_dibangun");
    } else {
      assert Fields[21] == Copy("kondisiStruktur", "kondisi_struktur");
    }
  }

  /** Every form field is stored under its snake_case name; only the submitter's id is renamed
      outside the rule. */
  lemma FieldsSnakeCase()
    ensures |Fields| == 23
    ensures forall i | 0 <= i < 22 :: Fields[i].name == SnakeCase(Fields[i].key)
    ensures Fields[22] == Copy("userId", "supabase_user_id")
  {
    forall i | 0 <= i < 22
      ensures Fields[i].name == SnakeCase(Fields[i].key)
    {
      if i == 0 {
        SnakeCaseOfLower(Fields[0].key);
      } else {
        if i < 8 {
          FirstWords(i);
        } else if i < 15 {
          MiddleWords(i);
        } else {
          LastWords(i);
        }
        var a, c, b :| TwoWords(Fields[i], a, c, b);
        SnakeCaseOfTwoWords(a, c, b);
      }
    }
  }

  /** No two copies write the same custom field. */
  lemma FieldNamesDistinct()
    ensures forall i, j | 0 <= i < j < |Fields| :: Fields[i].name != Fields[j].name
  {
  }

  // ---------------------------------------------------------------------------------------
  // Building `acfFields`

  /** `acfFields` after the first `n` conditional copies: a field is copied only when the body's
      value for its key is truthy. */
  function Copied(body: Value, n: nat): seq<Prop>
    requires n <= |Fields|
  {
    if n == 0 then []
    else
      var f := Fields[n - 1];
      var v := Member(Some(body), f.key);
      if Present(v) then Assign(Copied(body, n - 1), f.name, v.value) else Copied(body, n - 1)
  }

  /** The copies in order, each writing into the object built so far. */
  method BuildFields(body: Value) returns (acf: seq<Prop>)
    ensures acf == Copied(body, |Fields|)
  {
    acf := [];
    for i := 0 to |Fields|
      invariant acf == Copied(body, i)
    {
      var f := Fields[i];
      var v := Member(Some(body), f.key);
      if Present(v) {
        acf := Assign(acf, f.name, v.value);
      }
    }
  }

  /** A name no copy among the first `n` writes is absent. */
  lemma {:induction false} CopiedAbsent(body: Value, n: nat, k: string)
    requires n <= |Fields|
    requires forall j | 0 <= j < n :: Fields[j].name != k
    ensures Lookup(Copied(body, n), k) == None
  {
    if n > 0 {
      CopiedAbsent(body, n - 1, k);
    }
  }

  /** Among the first `n` copies, field `i` holds the body's value exactly when that value is truthy. */
  lemma {:induction false} CopiedLookup(body: Value, n: nat, i: nat)
    requires i < n <= |Fields|
    ensures Lookup(Copied(body, n), Fields[i].name) ==
      (if Present(Member(Some(body), Fields[i].key)) then Member(Some(body), Fields[i].key) else None)
  {
    FieldNamesDistinct();
    if i == n - 1 {
      CopiedAbsent(body, n - 1, Fields[i].name);
    } else {
      CopiedLookup(body, n - 1, i);
    }
  }

  /** The custom fields sent are exactly the truthy recognised fields of the body: each one under
      its table name, and nothing else. */
  lemma FieldsCopied(body: Value, i: nat, k: string)
    requires i < |Fields|
    ensures Lookup(Copied(body, |Fields|), Fields[i].name) ==
      (if Present(Member(Some(body), Fields[i].key)) then Member(Some(body), Fields[i].key) else None)
    ensures (forall j | 0 <= j < |Fields| :: Fields[j].name != k) ==> Lookup(Copied(body, |Fields|), k) == None
  {
    CopiedLookup(body, |Fields|, i);
    if forall j | 0 <= j < |Fields| :: Fields[j].name != k {
      CopiedAbsent(body, |Fields|, k);
    }
  }

  /** The owner recorded is the body's own `userId` when it is truthy: nothing checks it. */
  lemma OwnerFromBody(body: Value)
    ensures Lookup(Copied(body, |Fields|), "supabase_user_id") ==
      (if Present(Member(Some(body), "userId")) then Member(Some(body), "userId") else None)
  {
    FieldsSnakeCase();
    CopiedLookup(body, |Fields|, 22);
  }

  // ---------------------------------------------------------------------------------------
  // The handler

  /** The `catch` clause: `{ message: error.message || "Terjadi kesalahan pada server" }`, 500. */
  function Crash(message: string): Response {
    Message(if message == [] then FallbackMessage else message, 500)
  }

  /** The body of the create request: the body's `title` (left out when undefined), the
      `pending` status and the custom fields. */
  function Submission(body: Value): Value {
    Obj(Literal([("title", Member(Some(body), "title")), ("status", Some(Str(PendingStatus))),
                 ("fields", Some(Obj(Copied(body, |Fields|))))]))
  }

  /** The answer to the create request. */
  function Created(reply: Reply): Response {
    match reply
    case Unreachable(message) => Crash(message)
    case Reply(status, payload) =>
      if payload.NotJson? then Crash(payload.parseError)
      else if !Ok(status) then Crash(SendFailedPrefix + Serialize(payload.value))
      else LiteralResponse([("message", Some(Str(SuccessMessage))), ("data", Some(payload.value))], 201)
  }

  /** Steps after the credentials check: the token issuer's reply (`details` is its body as
      text), then the create request and its reply. */
  function Authenticated(body: Value, tokenReply: Reply, details: string, created: Reply): (Response, seq<Call>) {
    match tokenReply
    case Unreachable(message) => (Crash(message), [IssueToken])
    case Reply(status, payload) =>
      if !Ok(status) then (Crash(TokenFailedPrefix + details), [IssueToken])
      else if payload.NotJson? then (Crash(payload.parseError), [IssueToken])
      else if payload.value.Null? then (Crash(NullRead("token")), [IssueToken])
      else (Created(created), [IssueToken, Cms(POST, SubmitPath, Some(Submission(body)))])
  }

  /** What `POST(request)` answers and which upstream requests it sends: the parsed request body,
      the two credential variables and the upstream replies are parameters. */
  function Respond(request: Payload, user: Option<string>, pass: Option<string>,
                   tokenReply: Reply, details: string, created: Reply): (Response, seq<Call>)
  {
    match request
    case NotJson(parseError) => (Crash(parseError), [])
    case Json(body) =>
      if body.Null? then (Crash(NullRead("lokasi")), [])
      else if !WpOptimizer.Truthy(user) || !WpOptimizer.Truthy(pass) then (Crash(CredentialsMessage), [])
      else Authenticated(body, tokenReply, details, created)
  }

  /** The handler step by step: the copies into `acfFields`, the credentials, the token, the create. */
  method Post(request: Payload, user: Option<string>, pass: Option<string>,
              tokenReply: Reply, details: string, created: Reply) returns (response: Response, calls: seq<Call>)
    ensures (response, calls) == Respond(request, user, pass, tokenReply, details, created)
  {
    if request.NotJson? {
      return Crash(request.parseError), [];
    }
    var body := request.value;
    if body.Null? {
      return Crash(NullRead("lokasi")), [];
    }
    var acf := BuildFields(body);
    if !WpOptimizer.Truthy(user) || !WpOptimizer.Truthy(pass) {
      return Crash(CredentialsMessage), [];
    }
    calls := [IssueToken];
    if tokenReply.Unreachable? {
      return Crash(tokenReply.message), calls;
    }
    if !Ok(tokenReply.status) {
      return Crash(TokenFailedPrefix + details), calls;
    }
    if tokenReply.payload.NotJson? {
      return Crash(tokenReply.payload.parseError), calls;
    }
    if tokenReply.payload.value.Null? {
      return Crash(NullRead("token")), calls;
    }
    var submission := Obj(Literal([("title", Member(Some(body), "title")), ("status", Some(Str(PendingStatus))),
                                   ("fields", Some(Obj(acf)))]));
    assert submission == Submission(body);
    calls := calls + [Cms(POST, SubmitPath, Some(submission))];
    response := Created(created);
    assert Authenticated(body, tokenReply, details, created).1 == calls;
  }

  /** The create request carries the body's title, the `pending` status and the copied fields,
      and no other member: a public submission always waits for review. */
  lemma SubmissionContents(body: Value, k: string)
    ensures Submission(body).Obj?
    ensures Lookup(Submission(body).props, "status") == Some(Str(PendingStatus))
    ensures Lookup(Submission(body).props, "title") == Member(Some(body), "title")
    ensures Lookup(Submission(body).props, "fields") == Some(Obj(Copied(body, |Fields|)))
    ensures k != "title" && k != "status" && k != "fields" ==> Lookup(Submission(body).props, k) == None
  {
    var members := [("title", Member(Some(body), "title")), ("status", Some(Str(PendingStatus))),
                    ("fields", Some(Obj(Copied(body, |Fields|))))];
    LookupLiteral(members, 0);
    LookupLiteral(members, 1);
    LookupLiteral(members, 2);
    if k != "title" && k != "status" && k != "fields" {
      LookupLiteralAbsent(members, k);
    }
  }

  /** Every failure is a 500 whose message is never empty. */
  lemma CrashMessage(message: string)
    ensures Crash(message).status == 500
    ensures Field(Crash(message), "message") == Some(Str(if message == [] then FallbackMessage else message))
  {
    LookupLiteral([("message", Some(Str(if message == [] then FallbackMessage else message)))], 0);
  }

  /** The guards, in the handler's order: nothing is sent for an unreadable or `null` body or
      missing credentials; only the token request is sent when the token cannot be had; the one
      write is the create request, sent only with a token. */
  lemma RespondCalls(request: Payload, user: Option<string>, pass: Option<string>,
                     tokenReply: Reply, details: string, created: Reply)
    ensures var (response, calls) := Respond(request, user, pass, tokenReply, details, created);
      && (calls == [] <==> request.NotJson? || request.value.Null? || !WpOptimizer.Truthy(user) || !WpOptimizer.Truthy(pass))
      && (calls != [] ==> calls[0] == IssueToken)
      && (|calls| == 2 <==> calls != [] && tokenReply.Reply? && Ok(tokenReply.status) && tokenReply.payload.Json?
                               && !tokenReply.payload.value.Null?)
      && (|calls| == 2 ==> calls[1] == Cms(POST, SubmitPath, Some(Submission(request.value))))
      && |calls| <= 2
      && (request.NotJson? ==> response == Crash(request.parseError))
      && (request.Json? && request.value.Null? ==> response == Crash(NullRead("lokasi")))
      && (request.Json? && !request.value.Null? && !(WpOptimizer.Truthy(user) && WpOptimizer.Truthy(pass)) ==>
            response == Crash(CredentialsMessage))
  {
  }

  /** A 201 is answered exactly when the create request was sent and the CMS accepted it with a
      JSON answer; its `data` is that answer, and every other outcome is a 500. */
  lemma RespondCreated(request: Payload, user: Option<string>, pass: Option<string>,
                       tokenReply: Reply, details: string, created: Reply)
    ensures var (response, calls) := Respond(request, user, pass, tokenReply, details, created);
      && (response.status == 201 <==> |calls| == 2 && created.Reply? && Ok(created.status) && created.payload.Json?)
      && (response.status == 201 ==>
            Field(response, "data") == Some(created.payload.value) && Field(response, "message") == Some(Str(SuccessMessage)))
      && (response.status == 201 || response.status == 500)
  {
    RespondCalls(request, user, pass, tokenReply, details, created);
    if created.Reply? && Ok(created.status) && created.payload.Json? {
      var members := [("message", Some(Str(SuccessMessage))), ("data", Some(created.payload.value))];
      LookupLiteral(members, 0);
      LookupLiteral(members, 1);
    }
  }
}
