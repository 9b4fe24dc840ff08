/** The request helper every screen goes through (`api`): the default headers,
    how a caller's headers are merged over them, how a response becomes data or
    an error, how `post` and `put` encode their bodies, and the session keys a
    logout removes from local storage. The network itself is a parameter: a
    request is given the response it gets. */
module Api {
  import opened Seqs

  type Storage = map<string, string>
  type Headers = map<string, string>

  const ApiBaseUrl := "https://pharma-back-1.onrender.com/api"
  const ContentType := "Content-Type"
  const JsonMime := "application/json"
  const Authorization := "Authorization"
  const FallbackMessage := "Something went wrong"
  const TokenKey := "token"
  const UserKey := "user"
  const LoginPage := "login.html"

  /** A parsed JSON value. */
  datatype Json =
    | JNull
    | JBool(b: bool)
    | JNum(n: real)
    | JStr(s: string)
    | JArr(items: seq<Json>)
    | JObj(fields: map<string, Json>)

  /** JavaScript truthiness of a JSON value. */
  predicate Truthy(j: Json) {
    match j
    case JNull => false
    case JBool(b) => b
    case JNum(n) => n != 0.0
    case JStr(s) => s != ""
    case JArr(_) => true
    case JObj(_) => true
  }

  // ------------------------------------------------------------------ headers

  /** The stored token, when `localStorage.getItem('token')` is truthy. */
  function Token(storage: Storage): (t: Option<string>)
    ensures t.Some? <==> TokenKey in storage && storage[TokenKey] != ""
    ensures t.Some? ==> t.value == storage[TokenKey]
  {
    if TokenKey in storage && storage[TokenKey] != "" then Some(storage[TokenKey]) else None
  }

  /** The headers `getHeaders` produces. */
  function DefaultHeaders(isFormData: bool, token: Option<string>): (h: Headers)
    ensures ContentType in h <==> !isFormData
    ensures ContentType in h ==> h[ContentType] == JsonMime
    ensures Authorization in h <==> token.Some?
    ensures Authorization in h ==> h[Authorization] == "Bearer " + token.value
    ensures h.Keys <= {ContentType, Authorization}
  {
    var base: Headers := if isFormData then map[] else map[ContentType := JsonMime];
    if token.Some? then base[Authorization := "Bearer " + token.value] else base
  }

  /** `{ ...defaults, ...caller }`: every key of either, the caller's value on a clash. */
  function MergeHeaders(defaults: Headers, caller: Headers): (h: Headers)
    ensures h.Keys == defaults.Keys + caller.Keys
    ensures forall k :: k in caller ==> h[k] == caller[k]
    ensures forall k :: k in defaults && k !in caller ==> h[k] == defaults[k]
  {
    defaults + caller
  }

  // ------------------------------------------------------------------ bodies

  /** A multipart form, as its entries. */
  datatype FormData = FormData(entries: seq<(string, string)>)

  /** What a caller hands to `post` or `put`. */
  datatype Payload = Form(form: FormData) | Value(value: Json)

  /** The `body` of the fetch options. `JsonText(v)` stands for the string
      `JSON.stringify(v)`. */
  datatype RequestBody = NoBody | FormBody(form: FormData) | JsonText(value: Json)

  predicate IsFormData(b: RequestBody) {
    b.FormBody?
  }

  /** `body instanceof FormData ? body : JSON.stringify(body)`. */
  function EncodeBody(p: Payload): (b: RequestBody)
    ensures IsFormData(b) <==> p.Form?
    ensures b != NoBody
  {
    match p
    case Form(f) => FormBody(f)
    case Value(v) => JsonText(v)
  }

  /** What the server reads back out of a body. Like `JsonText`, this is part
      of the abstraction of `JSON.stringify`, not a model of code in the
      front end. */
  function DecodeBody(b: RequestBody): Option<Payload> {
    match b
    case NoBody => None
    case FormBody(f) => Some(Form(f))
    case JsonText(v) => Some(Value(v))
  }

  /** A form is sent untouched and any other value as its JSON text: the
      server recovers exactly what the caller passed. This only records that
      the body abstraction loses nothing; it proves nothing about
      `JSON.stringify` itself. */
  lemma EncodeBodyRoundTrip(p: Payload)
    ensures DecodeBody(EncodeBody(p)) == Some(p)
  {
  }

  // ------------------------------------------------------------------ requests

  datatype Options = Options(httpMethod: string, body: RequestBody, headers: Headers)

  function GetOptions(): Options {
    Options("GET", NoBody, map[])
  }

  function PostOptions(p: Payload): Options {
    Options("POST", EncodeBody(p), map[])
  }

  function PutOptions(p: Payload): Options {
    Options("PUT", EncodeBody(p), map[])
  }

  function DeleteOptions(): Options {
    Options("DELETE", NoBody, map[])
  }

  /** The options `request` hands to `fetch`: the caller's options with the
      default headers merged under the caller's own. */
  function FetchInit(opts: Options, storage: Storage): (r: Options)
    ensures r.httpMethod == opts.httpMethod && r.body == opts.body
    ensures forall k :: k in opts.headers ==> k in r.headers && r.headers[k] == opts.headers[k]
    ensures ContentType in r.headers <==> ContentType in opts.headers || !IsFormData(opts.body)
    ensures ContentType !in opts.headers && !IsFormData(opts.body) ==> r.headers[ContentType] == JsonMime
    ensures Authorization in r.headers <==> Authorization in opts.headers || Token(storage).Some?
    ensures Authorization !in opts.headers && Token(storage).Some? ==>
      r.headers[Authorization] == "Bearer " + Token(storage).value
    ensures r.headers.Keys <= opts.headers.Keys + {ContentType, Authorization}
  {
    opts.(headers := MergeHeaders(DefaultHeaders(IsFormData(opts.body), Token(storage)), opts.headers))
  }

  /** Headers that declare JSON exactly for a non-form payload and carry the
      stored token exactly when there is one. */
  predicate DeclaresPayload(h: Headers, p: Payload, storage: Storage) {
    && (ContentType in h <==> p.Value?)
    && (ContentType in h ==> h[ContentType] == JsonMime)
    && (Authorization in h <==> Token(storage).Some?)
    && (Authorization in h ==> h[Authorization] == "Bearer " + Token(storage).value)
  }

  /** `post` and `put` send a JSON content type exactly when the body is not
      a form, and the bearer token exactly when one is stored. */
  lemma PostAndPutHeaders(p: Payload, storage: Storage)
    ensures DeclaresPayload(FetchInit(PostOptions(p), storage).headers, p, storage)
    ensures DeclaresPayload(FetchInit(PutOptions(p), storage).headers, p, storage)
  {
  }

  /** `get` and `delete` carry no body, so they always declare JSON. */
  lemma GetAndDeleteDeclareJson(storage: Storage)
    ensures FetchInit(GetOptions(), storage).headers[ContentType] == JsonMime
    ensures FetchInit(DeleteOptions(), storage).headers[ContentType] == JsonMime
  {
  }

  /** The response `fetch` delivers, with its body already parsed. */
  datatype Response = Response(status: int, data: Json)

  /** `response.ok`. */
  predicate IsOk(status: int) {
    200 <= status <= 299
  }

  /** `data.message`, None where JavaScript reads `undefined`. */
  function MessageOf(data: Json): Option<Json> {
    match data
    case JObj(fields) => if "message" in fields then Some(fields["message"]) else None
    case _ => None
  }

  /** `data.message || 'Something went wrong'`. */
  function ErrorMessage(data: Json): (m: Json)
    ensures Truthy(m)
    ensures MessageOf(data).Some? && Truthy(MessageOf(data).value) ==> m == MessageOf(data).value
    ensures !(MessageOf(data).Some? && Truthy(MessageOf(data).value)) ==> m == JStr(FallbackMessage)
  {
    match MessageOf(data)
    case Some(v) => if Truthy(v) then v else JStr(FallbackMessage)
    case None => JStr(FallbackMessage)
  }

  /** The error `request` throws. Reading `message` of a `null` body throws a
      TypeError of its own instead of the intended error. */
  datatype RequestError = Thrown(message: Json) | NullBodyTypeError

  datatype RequestResult = Data(value: Json) | Failed(error: RequestError)

  /** How `request` treats a response: what it returns or throws, and whether
      it starts a logout first. */
  datatype Classified = Classified(result: RequestResult, startsLogout: bool)

  function Classify(resp: Response): (c: Classified)
    ensures c.startsLogout <==> resp.status == 401
    ensures IsOk(resp.status) <==> c.result.Data?
    ensures IsOk(resp.status) ==> c.result.value == resp.data
    ensures !IsOk(resp.status) && resp.data != JNull ==> c.result.error == Thrown(ErrorMessage(resp.data))
    ensures !IsOk(resp.status) && resp.data == JNull ==> c.result.error == NullBodyTypeError
  {
    if IsOk(resp.status) then Classified(Data(resp.data), false)
    else
      var error := if resp.data == JNull then NullBodyTypeError else Thrown(ErrorMessage(resp.data));
      Classified(Failed(error), resp.status == 401)
  }

  /** A failing response with a non-empty string message surfaces that very
      message; one without any usable message surfaces the fallback text. */
  lemma ServerMessageSurfaces(status: int, text: string, other: map<string, Json>)
    requires !IsOk(status) && text != ""
    ensures Classify(Response(status, JObj(other["message" := JStr(text)]))).result == Failed(Thrown(JStr(text)))
    ensures "message" !in other ==>
      Classify(Response(status, JObj(other))).result == Failed(Thrown(JStr(FallbackMessage)))
  {
  }

  // ------------------------------------------------------------------ session

  /** Local storage after `removeItem('token')` and `removeItem('user')`. */
  function WithoutSession(storage: Storage): (r: Storage)
    ensures r.Keys == storage.Keys - {TokenKey, UserKey}
    ensures forall k :: k in r ==> r[k] == storage[k]
  {
    storage - {TokenKey, UserKey}
  }

  /** Once the session keys are gone no request carries a bearer token. */
  lemma NoAuthorizationAfterLogout(storage: Storage, opts: Options)
    requires Authorization !in opts.headers
    ensures Authorization !in FetchInit(opts, WithoutSession(storage)).headers
  {
    assert Token(WithoutSession(storage)).None?;
  }

  /** The browser state the helper touches: local storage and the page location. */
  class Browser {
    var localStorage: Storage
    var location: string

    constructor (storage: Storage, page: string)
      ensures localStorage == storage && location == page
    {
      localStorage := storage;
      location := page;
    }

    /** `getHeaders(isFormData)`. */
    method GetHeaders(isFormData: bool) returns (headers: Headers)
      ensures headers == DefaultHeaders(isFormData, Token(localStorage))
    {
      var token: Option<string> := if TokenKey in localStorage then Some(localStorage[TokenKey]) else None;
      headers := map[];
      if !isFormData {
        headers := headers[ContentType := JsonMime];
      }
      if token.Some? && token.value != "" {
        headers := headers[Authorization := "Bearer " + token.value];
      }
    }

    /** `forceLogout`: drops the token and the user record, keeps every other
        entry, and goes to the login page. */
    method ForceLogout()
      modifies this
      ensures localStorage == WithoutSession(old(localStorage))
      ensures location == LoginPage
    {
      localStorage := localStorage - {TokenKey};
      localStorage := localStorage - {UserKey};
      location := LoginPage;
    }

    /** `logout`: asks first, and clears the session only when confirmed. */
    method Logout(confirmed: bool)
      modifies this
      ensures confirmed ==> localStorage == WithoutSession(old(localStorage)) && location == LoginPage
      ensures !confirmed ==> localStorage == old(localStorage) && location == old(location)
    {
      if confirmed {
        ForceLogout();
      }
    }

    /** `request(endpoint, options)`, given the response the server sends and
        the cashier's answer to the logout prompt a 401 raises. The logout is
        not awaited: its effect on storage is the one the prompt leads to. */
    method Request(endpoint: string, opts: Options, response: Response, confirmed: bool)
      returns (url: string, sent: Options, result: RequestResult)
      modifies this
      ensures url == ApiBaseUrl + endpoint
      ensures sent == FetchInit(opts, old(localStorage))
      ensures result == Classify(response).result
      ensures response.status == 401 && confirmed ==>
        localStorage == WithoutSession(old(localStorage)) && location == LoginPage
      ensures !(response.status == 401 && confirmed) ==>
        localStorage == old(localStorage) && location == old(location)
    {
      url := ApiBaseUrl + endpoint;
      var defaults := GetHeaders(IsFormData(opts.body));
      sent := opts.(headers := MergeHeaders(defaults, opts.headers));
      if !IsOk(response.status) {
        if response.status == 401 {
          Logout(confirmed);
        }
        if response.data == JNull {
          return url, sent, Failed(NullBodyTypeError);
        }
        return url, sent, Failed(Thrown(ErrorMessage(response.data)));
      }
      result := Data(response.data);
    }
  }
}
