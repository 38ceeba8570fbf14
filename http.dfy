/** Requests the pages issue and the responses they react to, as data: a request
    is recorded instead of being sent, and how it settles is an input.  Alerts,
    toasts and navigations are recorded the same way. */
module Http {
  import opened Js

  datatype Verb = Get | Post | Patch | Delete

  /** Which axios object sends a request: the instance configured for the app,
      whose default headers the session store edits, or the bare `axios` import. */
  datatype Client = AppClient | PlainAxios

  datatype Request = Request(client: Client, verb: Verb, path: string, headers: map<string, string>, body: Value)

  /** How an awaited axios request settles. */
  datatype Outcome =
    | Success(data: Value)                                 // 2xx: `response.data`
    | HttpError(status: int, data: Value, message: string) // rejected, `err.response` present
    | NoResponse(message: string)                          // rejected, no `err.response`

  /** How a list fetch settles, once the body has been read as records: a list, a
      falsy body, or a rejection with or without a response status. */
  datatype Listing<T> = Listed(items: seq<T>) | NoBody | ListFailed(status: Option<int>)

  /** `alert(text)`, `toast.error(text)` and `toast.success(text)` */
  datatype Notice = Alert(text: string) | ToastError(text: string) | ToastSuccess(text: string)

  /** The `state` passed to `navigate`: none, `{ from }`, or a one-shot `{ type, message }`. */
  datatype NavState = NoState | From(from: string) | Flash(kind: string, message: string)

  datatype Nav = Nav(path: string, state: NavState)

  /** The `localStorage` key under which the session keeps its token. */
  const TokenKey := "token"

  const JsonContentType := "application/json"
  const NetworkErrorText := "Network error or no response from server."
  const NotAuthenticatedText := "Not authenticated. Please log in."
  const LoginFailedText := "Login failed"
  const LogInText := "Please log in to create an appointment"

  /** The `Authorization` value for a bearer token (section 2.1 of RFC 6750): `Bearer ${token}`. */
  function Bearer(h: Host, token: Value): (r: string)
    ensures |r| >= 7 && r[..7] == "Bearer " && r[7..] == StringOf(h, token)
  {
    "Bearer " + StringOf(h, token)
  }

  /** `{ Authorization: `Bearer ${token}` }`: exactly one header, the bearer token. */
  function AuthHeaders(h: Host, token: Value): (r: map<string, string>)
    ensures r.Keys == {"Authorization"}
    ensures |r["Authorization"]| >= 7 && r["Authorization"][..7] == "Bearer " && r["Authorization"][7..] == StringOf(h, token)
  {
    map["Authorization" := Bearer(h, token)]
  }

  /** The bearer header plus the JSON content type, and nothing else. */
  function AuthJsonHeaders(h: Host, token: Value): (r: map<string, string>)
    ensures r.Keys == AuthHeaders(h, token).Keys + {"Content-Type"}
    ensures r["Authorization"] == AuthHeaders(h, token)["Authorization"]
    ensures r["Content-Type"] == JsonContentType
  {
    map["Authorization" := Bearer(h, token), "Content-Type" := JsonContentType]
  }

  /** A form of string fields sent as a JSON object. */
  function Body(form: map<string, string>): (r: Value)
    ensures r.Obj? && r.fields.Keys == form.Keys
    ensures forall k | k in form :: Prop(r, k) == Str(form[k])
  {
    Obj(map k | k in form :: Str(form[k]))
  }

  /** `{ ...m, created_at: now, updated_at: now }` */
  function Stamped<V>(m: map<string, V>, now: V): (r: map<string, V>)
    ensures r.Keys == m.Keys + {"created_at", "updated_at"}
    ensures r["created_at"] == now && r["updated_at"] == now
    ensures forall k | k in m && k != "created_at" && k != "updated_at" :: r[k] == m[k]
  {
    m["created_at" := now]["updated_at" := now]
  }

  /** The headers that go out: on the app's instance, its common default headers
      overlaid by the request's own; on bare axios, only the request's own.  Request
      interceptors, which could add more, are not part of this model. */
  function SentHeaders(req: Request, appDefaults: map<string, string>): (r: map<string, string>)
    ensures forall k | k in req.headers :: k in r && r[k] == req.headers[k]
    ensures req.client == PlainAxios ==> r.Keys == req.headers.Keys
    ensures req.client == AppClient ==> r.Keys == appDefaults.Keys + req.headers.Keys
    ensures req.client == AppClient ==> forall k | k in appDefaults && k !in req.headers :: r[k] == appDefaults[k]
  {
    if req.client == AppClient then appDefaults + req.headers else req.headers
  }
}
