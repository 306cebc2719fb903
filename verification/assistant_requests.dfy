/**
 * What the assistant thunks send and how they settle: the base URL, the
 * multipart encoding of an object's fields, the query string, the
 * authorization header, the rejection message, and the four requests.
 * The HTTP exchange itself is a parameter: each thunk is given the
 * response it met.
 */
module AssistantRequests {
  import opened Wrappers
  import opened Text
  import Seqs
  import opened JsValues
  import AssistantWizard
  import EntitySlice
  import Assistants

  // ---------------------------------------------------------------------
  // Base URL
  // ---------------------------------------------------------------------

  /** The two build-time variables, when the build provides an environment at all. */
  datatype Env = Env(viteBaseUrl: Option<string>, viteApiBaseUrl: Option<string>)

  const LocalBaseUrl := "http://localhost:8080"

  /** `getBaseUrl`: the first non-empty of the two variables, else the local server. */
  function GetBaseUrl(env: Option<Env>): (r: string)
    ensures env.None? ==> r == LocalBaseUrl
    ensures env.Some? && Present(env.value.viteBaseUrl) ==> r == env.value.viteBaseUrl.value
    ensures env.Some? && !Present(env.value.viteBaseUrl) && Present(env.value.viteApiBaseUrl) ==>
      r == env.value.viteApiBaseUrl.value
    ensures env.Some? && !Present(env.value.viteBaseUrl) && !Present(env.value.viteApiBaseUrl) ==>
      r == LocalBaseUrl
    ensures r != ""
  {
    match env
    case None => LocalBaseUrl
    case Some(e) => OrElse(e.viteBaseUrl, OrElse(e.viteApiBaseUrl, LocalBaseUrl))
  }

  // ---------------------------------------------------------------------
  // objectToFormData
  // ---------------------------------------------------------------------

  /** One multipart field value: text, the JSON encoding of a value, or an attached file. */
  datatype Part = Text(text: string) | Json(value: JsValue) | Attached(fileName: string)

  /** Entries whose value is `undefined` or `null` are skipped. */
  predicate Kept(e: (string, JsValue)) {
    !(e.1.Undefined? || e.1.Null?)
  }

  /**
   * How `objectToFormData` renders one value, as written: a truthy
   * `spreadsheet_metadata` and every array or plain object are JSON-encoded;
   * everything else, a `File` included, becomes `String(value)`.
   */
  function EncodeValue(key: string, v: JsValue): (p: Part)
    ensures p.Json? <==> (key == "spreadsheet_metadata" && Truthy(v)) || v.Arr? || v.Obj?
    ensures p.Json? ==> p.value == v
    ensures p.Text? ==> p.text == StringOf(v)
    ensures !p.Attached?
  {
    if key == "spreadsheet_metadata" && Truthy(v) then Json(v)
    else if IsObjectType(v) && !v.File? && !v.Null? then Json(v)
    else Text(StringOf(v))
  }

  /** A `File` value reaches the server as the text `[object File]`, not as the file. */
  lemma FileBecomesText(key: string, name: string)
    requires key != "spreadsheet_metadata"
    ensures EncodeValue(key, File(name)) == Text("[object File]")
  {
  }

  /** The encoding the `instanceof File` test evidently intends: a file is attached as is. */
  function EncodeValueIntended(key: string, v: JsValue): (p: Part)
    ensures v.File? && key != "spreadsheet_metadata" ==> p == Attached(v.fileName)
    ensures !v.File? ==> p == EncodeValue(key, v)
  {
    if key == "spreadsheet_metadata" && Truthy(v) then Json(v)
    else if v.File? then Attached(v.fileName)
    else EncodeValue(key, v)
  }

  function EncodeEntry(e: (string, JsValue)): (string, Part) {
    (e.0, EncodeValue(e.0, e.1))
  }

  function EncodeEntryIntended(e: (string, JsValue)): (string, Part) {
    (e.0, EncodeValueIntended(e.0, e.1))
  }

  /**
   * `objectToFormData`, as written: one field per entry whose value is
   * neither `undefined` nor `null`, in entry order.
   */
  function ObjectToFormData(entries: seq<(string, JsValue)>): (parts: seq<(string, Part)>)
    ensures |parts| == Seqs.CountWhere(entries, Kept)
    ensures (forall i | 0 <= i < |entries| :: Kept(entries[i])) ==> |parts| == |entries|
    ensures forall k | 0 <= k < |parts| :: !parts[k].1.Attached?
  {
    if |entries| == 0 then []
    else
      (if Kept(entries[0]) then [EncodeEntry(entries[0])] else []) + ObjectToFormData(entries[1..])
  }

  /** The same fields, as a filter followed by a map: the order of the entries is kept. */
  lemma {:induction false} ObjectToFormDataIsFilterMap(entries: seq<(string, JsValue)>)
    ensures ObjectToFormData(entries) == Seqs.Map(Seqs.Filter(entries, Kept), EncodeEntry)
    decreases |entries|
  {
    if |entries| > 0 {
      ObjectToFormDataIsFilterMap(entries[1..]);
      var h: seq<(string, JsValue)> := if Kept(entries[0]) then [entries[0]] else [];
      assert Seqs.Filter(entries, Kept) == h + Seqs.Filter(entries[1..], Kept);
      MapAppend(h, Seqs.Filter(entries[1..], Kept));
    }
  }

  lemma MapAppend(a: seq<(string, JsValue)>, b: seq<(string, JsValue)>)
    ensures Seqs.Map(a + b, EncodeEntry) == Seqs.Map(a, EncodeEntry) + Seqs.Map(b, EncodeEntry)
  {
  }

  /** `objectToFormData` as the `instanceof File` test evidently intends. */
  function ObjectToFormDataIntended(entries: seq<(string, JsValue)>): (parts: seq<(string, Part)>)
    ensures |parts| == Seqs.CountWhere(entries, Kept)
  {
    if |entries| == 0 then []
    else
      (if Kept(entries[0]) then [EncodeEntryIntended(entries[0])] else []) + ObjectToFormDataIntended(entries[1..])
  }

  /** A file among the fields is attached by the intended encoding. */
  lemma IntendedAttachesFile(key: string, name: string)
    requires key != "spreadsheet_metadata"
    ensures ObjectToFormDataIntended([(key, File(name))]) == [(key, Attached(name))]
    ensures ObjectToFormData([(key, File(name))]) == [(key, Text("[object File]"))]
  {
  }

  /** Without file values the two encodings agree. */
  lemma {:induction false} EncodingsAgreeWithoutFiles(entries: seq<(string, JsValue)>)
    requires forall i | 0 <= i < |entries| :: !entries[i].1.File?
    ensures ObjectToFormDataIntended(entries) == ObjectToFormData(entries)
    decreases |entries|
  {
    if |entries| > 0 {
      EncodingsAgreeWithoutFiles(entries[1..]);
    }
  }

  // ---------------------------------------------------------------------
  // Query string and headers
  // ---------------------------------------------------------------------

  /** The bytes `application/x-www-form-urlencoded` leaves as they are. */
  predicate Unreserved(c: char) {
    ('a' <= c <= 'z') || ('A' <= c <= 'Z') || ('0' <= c <= '9') || c == '*' || c == '-' || c == '.' || c == '_'
  }

  /** The UTF-8 bytes of one character. */
  function Utf8(c: char): (bytes: seq<int>)
    ensures 1 <= |bytes| <= 4
    ensures forall k | 0 <= k < |bytes| :: 0 <= bytes[k] < 256
    ensures (c as int) < 0x80 ==> bytes == [c as int]
  {
    var n := c as int;
    if n < 0x80 then [n]
    else if n < 0x800 then [0xC0 + n / 64, 0x80 + n % 64]
    else if n < 0x10000 then [0xE0 + n / 4096, 0x80 + (n / 64) % 64, 0x80 + n % 64]
    else [0xF0 + n / 262144 % 8, 0x80 + (n / 4096) % 64, 0x80 + (n / 64) % 64, 0x80 + n % 64]
  }

  function HexDigit(d: int): (c: char)
    requires 0 <= d < 16
    ensures IsDigit(c) || ('A' <= c <= 'F')
  {
    "0123456789ABCDEF"[d]
  }

  /** `%XX` for each byte, upper-case hex. */
  function PercentBytes(bytes: seq<int>): (r: string)
    requires forall k | 0 <= k < |bytes| :: 0 <= bytes[k] < 256
    ensures |r| == 3 * |bytes|
    ensures forall k | 0 <= k < |r| :: r[k] == '%' || IsDigit(r[k]) || ('A' <= r[k] <= 'F')
  {
    if |bytes| == 0 then ""
    else ['%', HexDigit(bytes[0] / 16), HexDigit(bytes[0] % 16)] + PercentBytes(bytes[1..])
  }

  /** One character of a form-encoded value. */
  function FormEncodeChar(c: char): (r: string)
    ensures Unreserved(c) ==> r == [c]
    ensures c == ' ' ==> r == "+"
    ensures forall k | 0 <= k < |r| :: r[k] != '&' && r[k] != '=' && r[k] != '#' && r[k] != ' '
  {
    if Unreserved(c) then [c]
    else if c == ' ' then "+"
    else PercentBytes(Utf8(c))
  }

  /** The value serialization `URLSearchParams` applies. */
  function FormEncode(s: string): (r: string)
    ensures (forall k | 0 <= k < |s| :: Unreserved(s[k])) ==> r == s
    ensures forall k | 0 <= k < |r| :: r[k] != '&' && r[k] != '=' && r[k] != '#' && r[k] != ' '
  {
    if |s| == 0 then "" else FormEncodeChar(s[0]) + FormEncode(s[1..])
  }

  /**
   * The fetch URL: `${base}/api/assistants`, plus `?company_id=…` exactly
   * when the company id is truthy.
   */
  function FetchUrl(base: string, companyId: JsValue): (url: string)
    ensures !Truthy(companyId) ==> url == base + "/api/assistants"
    ensures Truthy(companyId) ==>
      url == base + "/api/assistants?company_id=" + FormEncode(StringOf(companyId))
  {
    var url := base + "/api/assistants";
    if Truthy(companyId) then url + "?" + "company_id=" + FormEncode(StringOf(companyId)) else url
  }

  /** The query holds a single parameter: its value carries no `&`, `=` or `#`. */
  lemma FetchUrlSingleParameter(base: string, companyId: JsValue)
    requires Truthy(companyId)
    ensures var v := FetchUrl(base, companyId)[|base + "/api/assistants?company_id="|..];
      forall k | 0 <= k < |v| :: v[k] != '&' && v[k] != '=' && v[k] != '#'
  {
    var prefix := base + "/api/assistants?company_id=";
    assert FetchUrl(base, companyId) == prefix + FormEncode(StringOf(companyId));
    assert FetchUrl(base, companyId)[|prefix|..] == FormEncode(StringOf(companyId));
  }

  const TestToken := "org_test_token"

  /** The fetch header: the caller's token when truthy, else the test token. */
  function FetchAuthorization(token: JsValue): (h: string)
    ensures Truthy(token) ==> h == "Bearer " + StringOf(token)
    ensures !Truthy(token) ==> h == "Bearer " + TestToken
  {
    "Bearer " + (if Truthy(token) then StringOf(token) else TestToken)
  }

  /** Create, update and delete always send the test token, whatever token they are given. */
  const FixedAuthorization := "Bearer " + TestToken

  // ---------------------------------------------------------------------
  // Failures
  // ---------------------------------------------------------------------

  /** A failed request: the server's `response.data.message`, and the error's own `message`. */
  datatype HttpError = HttpError(responseMessage: Option<string>, message: Option<string>)

  /** What a request met: a response body, or an error. */
  datatype Http = Ok(body: JsValue) | Failed(error: HttpError)

  const UnknownError := "An unknown error occurred"

  /** The rejection message: the server's message, else the error's, else a fixed text. */
  function RejectionMessage(e: HttpError): (m: string)
    ensures Present(e.responseMessage) ==> m == e.responseMessage.value
    ensures !Present(e.responseMessage) && Present(e.message) ==> m == e.message.value
    ensures !Present(e.responseMessage) && !Present(e.message) ==> m == UnknownError
    ensures m != ""
  {
    OrElse(e.responseMessage, OrElse(e.message, UnknownError))
  }

  /** How a thunk settles: fulfilled with a payload, or rejected with a message. */
  datatype Settled = Fulfilled(payload: JsValue) | RejectedWith(message: string)

  // ---------------------------------------------------------------------
  // The requests
  // ---------------------------------------------------------------------

  datatype Verb = Get | Post | Put | Delete

  datatype Body = NoBody | FormBody(parts: seq<(string, Part)>) | JsonBody(value: JsValue)

  datatype Request = Request(verb: Verb, url: string, authorization: string, body: Body)

  /** `fetchAssistants({ token, companyId })`. */
  function FetchAssistantsRequest(env: Option<Env>, token: JsValue, companyId: JsValue): (r: Request)
    ensures r.verb == Get && r.body == NoBody
    ensures r.url == FetchUrl(GetBaseUrl(env), companyId)
    ensures r.authorization == FetchAuthorization(token)
  {
    Request(Get, FetchUrl(GetBaseUrl(env), companyId), FetchAuthorization(token), NoBody)
  }

  /**
   * `fetchAssistants(arg)`: the thunk destructures `{ token, companyId }`
   * from its argument, so any argument that is not an object with those
   * fields (a bare string, say) contributes neither. A `null` argument
   * throws before the thunk body runs.
   */
  function FetchAssistantsCall(env: Option<Env>, arg: JsValue): (r: Request)
    requires !arg.Null?
    ensures !arg.Obj? ==> r == FetchAssistantsRequest(env, Undefined, Undefined)
    ensures arg.Obj? ==> r == FetchAssistantsRequest(env, FieldOf(arg.entries, "token"), FieldOf(arg.entries, "companyId"))
  {
    FetchAssistantsRequest(env, Field(arg, "token"), Field(arg, "companyId"))
  }

  /** A thunk that returns `response.data` settles with it, or rejects with the failure's message. */
  function SettleWithBody(response: Http): (r: Settled)
    ensures response.Ok? ==> r == Fulfilled(response.body)
    ensures response.Failed? ==> r == RejectedWith(RejectionMessage(response.error))
  {
    match response
    case Ok(body) => Fulfilled(body)
    case Failed(e) => RejectedWith(RejectionMessage(e))
  }

  /** The fields `createAssistant` sends: everything except `token` and `databases`. */
  function StripFields(data: seq<(string, JsValue)>): (rest: seq<(string, JsValue)>)
    ensures forall e | e in rest :: e in data && e.0 != "token" && e.0 != "databases"
    ensures forall i | 0 <= i < |data| && data[i].0 != "token" && data[i].0 != "databases" :: data[i] in rest
  {
    Seqs.Filter(data, (e: (string, JsValue)) => e.0 != "token" && e.0 != "databases")
  }

  /** `createAssistant`'s multipart post of the remaining fields, encoded as written. */
  function CreateAssistantRequest(env: Option<Env>, data: seq<(string, JsValue)>): (r: Request)
    ensures r.verb == Post && r.url == GetBaseUrl(env) + "/api/assistants"
    ensures r.authorization == FixedAuthorization
    ensures r.body.FormBody? && r.body.parts == ObjectToFormData(StripFields(data))
  {
    Request(Post, GetBaseUrl(env) + "/api/assistants", FixedAuthorization, FormBody(ObjectToFormData(StripFields(data))))
  }

  /** Without file values the create post is what the corrected encoding would send. */
  lemma CreateAgreesWithIntended(env: Option<Env>, data: seq<(string, JsValue)>)
    requires forall i | 0 <= i < |data| :: !data[i].1.File?
    ensures CreateAssistantRequest(env, data).body.parts == ObjectToFormDataIntended(StripFields(data))
  {
    var rest := StripFields(data);
    forall i | 0 <= i < |rest| ensures !rest[i].1.File? {
      assert rest[i] in rest;
    }
    EncodingsAgreeWithoutFiles(rest);
  }

  /** The follow-up post of the `databases` value to the created assistant's tables. */
  function TablesRequest(env: Option<Env>, data: seq<(string, JsValue)>, created: JsValue): (r: Request)
    ensures r.verb == Post && r.authorization == FixedAuthorization
    ensures r.url == GetBaseUrl(env) + "/api/assistants/" + StringOf(Field(created, "id")) + "/tables/group"
    ensures r.body == JsonBody(FieldOf(data, "databases"))
  {
    Request(Post, GetBaseUrl(env) + "/api/assistants/" + StringOf(Field(created, "id")) + "/tables/group",
      FixedAuthorization, JsonBody(FieldOf(data, "databases")))
  }

  /**
   * Whether the tables post is made: the create post succeeded and its body
   * is neither `null` nor `undefined`, since reading `.id` of those throws
   * inside the inner `try` before the post is sent.
   */
  predicate SendsTables(post: Http) {
    post.Ok? && !post.body.Null? && !post.body.Undefined?
  }

  /**
   * The requests `createAssistant` makes: the tables post follows only a
   * successful create whose body can be read.
   */
  function CreateAssistantRequests(env: Option<Env>, data: seq<(string, JsValue)>, post: Http): (rs: seq<Request>)
    ensures |rs| == if post.Ok? && !post.body.Null? && !post.body.Undefined? then 2 else 1
    ensures rs[0] == CreateAssistantRequest(env, data)
    ensures |rs| == 2 ==> rs[1] == TablesRequest(env, data, post.body)
  {
    [CreateAssistantRequest(env, data)] + (if SendsTables(post) then [TablesRequest(env, data, post.body)] else [])
  }

  /**
   * How `createAssistant` settles. The tables post's outcome is only
   * logged: whatever it meets, the thunk settles as the create post did.
   */
  function CreateAssistantOutcome(post: Http, tables: Http): (r: Settled)
    ensures post.Ok? ==> r == Fulfilled(post.body)
    ensures post.Failed? ==> r == RejectedWith(RejectionMessage(post.error))
  {
    SettleWithBody(post)
  }

  /** The multipart fields never carry the token or the databases. */
  lemma CreateFieldsOmitTokenAndDatabases(env: Option<Env>, data: seq<(string, JsValue)>)
    ensures forall k | 0 <= k < |CreateAssistantRequest(env, data).body.parts| ::
      CreateAssistantRequest(env, data).body.parts[k].0 != "token"
      && CreateAssistantRequest(env, data).body.parts[k].0 != "databases"
  {
    var rest := StripFields(data);
    KeyAbsent(rest, "token");
    KeyAbsent(rest, "databases");
  }

  /** A key no kept entry carries names no field of the encoding. */
  lemma {:induction false} KeyAbsent(entries: seq<(string, JsValue)>, key: string)
    requires forall i | 0 <= i < |entries| && entries[i].0 == key :: !Kept(entries[i])
    ensures forall k | 0 <= k < |ObjectToFormData(entries)| :: ObjectToFormData(entries)[k].0 != key
    decreases |entries|
  {
    if |entries| > 0 {
      KeyAbsent(entries[1..], key);
      var tail := ObjectToFormData(entries[1..]);
      var h := if Kept(entries[0]) then [EncodeEntry(entries[0])] else [];
      assert ObjectToFormData(entries) == h + tail;
    }
  }

  /** An entry the encoding turns into a text field not named `uploadedFile`, or drops. */
  predicate PlainEntry(e: (string, JsValue)) {
    && !e.1.File? && !e.1.Arr? && !e.1.Obj?
    && e.0 != "spreadsheet_metadata"
    && (e.0 == "uploadedFile" ==> !Kept(e))
  }

  /** A plain entry that is kept is sent as text, under a name other than `uploadedFile`. */
  lemma PlainEntryIsText(e: (string, JsValue))
    requires PlainEntry(e) && Kept(e)
    ensures EncodeEntry(e).1.Text? && EncodeEntry(e).0 != "uploadedFile"
  {
  }

  /** Every field is text and none is named `uploadedFile`. */
  predicate AllText(parts: seq<(string, Part)>) {
    forall k | 0 <= k < |parts| :: parts[k].1.Text? && parts[k].0 != "uploadedFile"
  }

  /** Plain entries yield only text fields, none named `uploadedFile`. */
  lemma {:induction false} PlainEntriesGiveText(entries: seq<(string, JsValue)>)
    requires forall i | 0 <= i < |entries| :: PlainEntry(entries[i])
    ensures forall k | 0 <= k < |ObjectToFormData(entries)| ::
      ObjectToFormData(entries)[k].1.Text? && ObjectToFormData(entries)[k].0 != "uploadedFile"
    decreases |entries|
  {
    if |entries| > 0 {
      var rest := entries[1..];
      assert forall i | 0 <= i < |rest| :: rest[i] == entries[i + 1];
      PlainEntriesGiveText(rest);
      var tail := ObjectToFormData(rest);
      assert AllText(tail);
      var h := if Kept(entries[0]) then [EncodeEntry(entries[0])] else [];
      if Kept(entries[0]) {
        PlainEntryIsText(entries[0]);
      }
      assert AllText(h);
      AllTextConcat(h, tail);
      assert ObjectToFormData(entries) == h + tail;
    }
  }

  /** Concatenating two all-text field lists gives an all-text list. */
  lemma AllTextConcat(a: seq<(string, Part)>, b: seq<(string, Part)>)
    requires AllText(a) && AllText(b)
    ensures AllText(a + b)
  {
    assert forall k | |a| <= k < |a + b| :: (a + b)[k] == b[k - |a|];
  }

  /** Every entry the wizard sends besides `databases` and `token` is plain. */
  lemma WizardEntriesArePlain(f: AssistantWizard.Form, token: string)
    ensures forall e | e in StripFields(AssistantWizard.CreatePayload(f, token)) :: PlainEntry(e)
  {
    var data := AssistantWizard.CreatePayload(f, token);
    assert forall e | e in data && e.0 != "databases" :: PlainEntry(e);
  }

  /**
   * The wizard's create request carries only text fields: the payload holds
   * no file, `uploadedFile` is `null` and so dropped, and the only array
   * value (`databases`) is stripped.
   */
  lemma WizardRequestIsPlainText(env: Option<Env>, f: AssistantWizard.Form, token: string)
    ensures var parts := CreateAssistantRequest(env, AssistantWizard.CreatePayload(f, token)).body.parts;
      forall k | 0 <= k < |parts| :: parts[k].1.Text? && parts[k].0 != "uploadedFile"
  {
    var rest := StripFields(AssistantWizard.CreatePayload(f, token));
    WizardEntriesArePlain(f, token);
    assert forall i | 0 <= i < |rest| :: rest[i] in rest;
    PlainEntriesGiveText(rest);
  }

  /** `updateAssistant`'s data: a ready `FormData`, or an object to encode. */
  datatype UpdateData = Ready(parts: seq<(string, Part)>) | Fields(entries: seq<(string, JsValue)>)

  /** `updateAssistant({ id, data })`: a multipart put to the assistant's URL, encoded as written. */
  function UpdateAssistantRequest(env: Option<Env>, id: JsValue, data: UpdateData): (r: Request)
    ensures r.verb == Put && r.authorization == FixedAuthorization
    ensures r.url == GetBaseUrl(env) + "/api/assistants/" + StringOf(id)
    ensures data.Ready? ==> r.body == FormBody(data.parts)
    ensures data.Fields? ==> r.body == FormBody(ObjectToFormData(data.entries))
  {
    var parts := match data
      case Ready(ps) => ps
      case Fields(es) => ObjectToFormData(es);
    Request(Put, GetBaseUrl(env) + "/api/assistants/" + StringOf(id), FixedAuthorization, FormBody(parts))
  }

  /** An update object without file values is sent as the corrected encoding would send it. */
  lemma UpdateAgreesWithIntended(env: Option<Env>, id: JsValue, entries: seq<(string, JsValue)>)
    requires forall i | 0 <= i < |entries| :: !entries[i].1.File?
    ensures UpdateAssistantRequest(env, id, Fields(entries)).body == FormBody(ObjectToFormDataIntended(entries))
  {
    EncodingsAgreeWithoutFiles(entries);
  }

  /** `deleteAssistant({ id })`: a delete of the assistant's URL. */
  function DeleteAssistantRequest(env: Option<Env>, id: JsValue): (r: Request)
    ensures r.verb == Delete && r.authorization == FixedAuthorization && r.body == NoBody
    ensures r.url == GetBaseUrl(env) + "/api/assistants/" + StringOf(id)
  {
    Request(Delete, GetBaseUrl(env) + "/api/assistants/" + StringOf(id), FixedAuthorization, NoBody)
  }

  /** `deleteAssistant` settles with the id it was given, whatever the response body. */
  function DeleteAssistantOutcome(id: JsValue, response: Http): (r: Settled)
    ensures response.Ok? ==> r == Fulfilled(id)
    ensures response.Failed? ==> r == RejectedWith(RejectionMessage(response.error))
  {
    match response
    case Ok(_) => Fulfilled(id)
    case Failed(e) => RejectedWith(RejectionMessage(e))
  }

  // ---------------------------------------------------------------------
  // How a settled thunk reaches the assistants slice
  // ---------------------------------------------------------------------

  /**
   * A thunk rejected through `rejectWithValue(message)` puts its message in
   * the slice: the message is never empty, so the slice's own default
   * message is never used for it.
   */
  lemma RejectionReachesSlice(s: Assistants.State, op: EntitySlice.Op, e: HttpError)
    ensures var r := Assistants.Reduce(s, Assistants.Entity(EntitySlice.Rejected(op, Some(RejectionMessage(e)))));
      r.error == Some(RejectionMessage(e)) && r.data == s.data && !r.loading
  {
  }

  /**
   * The assistants slice after `deleteAssistant({ id })` runs: the pending
   * action, then the action the outcome dispatches.
   */
  function AfterDelete(s: Assistants.State, id: Scalar, response: Http): (r: Assistants.State)
    ensures response.Ok? ==> Assistants.SelectById(r, id) == Missing(AsNull)
    ensures response.Ok? ==> forall a | a in r.data :: a in s.data && a.id != id
    ensures response.Ok? ==> forall i | 0 <= i < |s.data| && s.data[i].id != id :: s.data[i] in r.data
    ensures response.Ok? ==> !r.loading && r.error.None?
    ensures response.Failed? ==> r.data == s.data && !r.loading
    ensures response.Failed? ==> r.error == Some(RejectionMessage(response.error))
  {
    var pending := Assistants.Reduce(s, Assistants.Entity(EntitySlice.Pending(EntitySlice.Delete)));
    match DeleteAssistantOutcome(ScalarValue(id), response)
    case Fulfilled(_) =>
      var r := Assistants.Reduce(pending, Assistants.Entity(EntitySlice.DeleteFulfilled(id)));
      Assistants.DeleteThenSelect(pending, id);
      r
    case RejectedWith(m) =>
      Assistants.Reduce(pending, Assistants.Entity(EntitySlice.Rejected(EntitySlice.Delete, Some(m))))
  }
}
