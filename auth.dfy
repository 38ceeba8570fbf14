/** The session store behind `useAuth`: it keeps the token in `localStorage`, the
    `Authorization` default header of the app's axios instance, and the signed-in
    user. */
module Auth {
  import opened Js
  import opened Http

  const NoTokenText := "Login response did not include a token"

  /** `res.data?.token || res.data?.access_token` */
  function PickToken(data: Value): (r: Value)
    ensures Truthy(Prop(data, "token")) ==> r == Prop(data, "token")
    ensures !Truthy(Prop(data, "token")) ==> r == Prop(data, "access_token")
    ensures Truthy(r) <==> Truthy(Prop(data, "token")) || Truthy(Prop(data, "access_token"))
  {
    Or(Prop(data, "token"), Prop(data, "access_token"))
  }

  /** `res.data?.user || { email }`: always a signed-in (truthy) user. */
  function SignedInUser(data: Value, email: Value): (r: Value)
    ensures Truthy(r)
    ensures Truthy(Prop(data, "user")) ==> r == Prop(data, "user")
    ensures !Truthy(Prop(data, "user")) ==> r == Obj(map["email" := email])
  {
    Or(Prop(data, "user"), Obj(map["email" := email]))
  }

  /** `axios.post("/login", { email, password }, { headers: { "Content-Type": ... } })` */
  function LoginRequest(email: Value, password: Value): (r: Request)
    ensures r.client == AppClient && r.verb == Post && r.path == "/login"
    ensures r.headers == map["Content-Type" := JsonContentType]
    ensures Prop(r.body, "email") == email && Prop(r.body, "password") == password
  {
    Request(AppClient, Post, "/login", map["Content-Type" := JsonContentType],
      Obj(map["email" := email, "password" := password]))
  }

  /** The token a settled login request yields, if any. */
  function LoginToken(outcome: Outcome): (r: Option<Value>)
    ensures r.Some? <==> outcome.Success? && Truthy(PickToken(outcome.data))
    ensures r.Some? ==> Truthy(r.value) && r.value == PickToken(outcome.data)
  {
    if outcome.Success? && Truthy(PickToken(outcome.data)) then Some(PickToken(outcome.data)) else None
  }

  /** `err?.response?.data?.message || err?.response?.data || err?.message || "Login failed"`,
      where a missing token surfaces as a thrown `Error` whose message is NoTokenText. */
  function ServerMessage(outcome: Outcome): (r: Value)
    ensures Truthy(r)
    ensures outcome.Success? ==> r == Str(NoTokenText)
    ensures outcome.HttpError? && Truthy(Prop(outcome.data, "message")) ==> r == Prop(outcome.data, "message")
    ensures outcome.HttpError? && !Truthy(Prop(outcome.data, "message")) && Truthy(outcome.data) ==> r == outcome.data
    ensures outcome.HttpError? && !Truthy(Prop(outcome.data, "message")) && !Truthy(outcome.data) ==>
      r == Str(if outcome.message != "" then outcome.message else LoginFailedText)
    ensures outcome.NoResponse? ==> r == Str(if outcome.message != "" then outcome.message else LoginFailedText)
  {
    match outcome
    case Success(_) => Str(NoTokenText)
    case HttpError(_, data, message) => Or(Or(Or(Prop(data, "message"), data), Str(message)), Str(LoginFailedText))
    case NoResponse(message) => Or(Str(message), Str(LoginFailedText))
  }

  /** The message of the error `onLogin` rethrows: the server message as text, else
      the JSON of a non-string message or body. */
  function LoginErrorText(h: Host, outcome: Outcome): (r: string)
    requires LoginToken(outcome).None?
    ensures outcome.Success? ==> r == NoTokenText
    ensures outcome.HttpError? && Prop(outcome.data, "message").Str? && Truthy(Prop(outcome.data, "message")) ==>
      r == Prop(outcome.data, "message").s
    ensures outcome.HttpError? && Truthy(Prop(outcome.data, "message")) && !Prop(outcome.data, "message").Str? ==>
      r == h.stringify(Prop(outcome.data, "message"))
    ensures outcome.HttpError? && !Truthy(Prop(outcome.data, "message")) && outcome.data.Str? && outcome.data.s != "" ==>
      r == outcome.data.s
    ensures outcome.HttpError? && !Truthy(Prop(outcome.data, "message")) && Truthy(outcome.data) && !outcome.data.Str? ==>
      r == h.stringify(outcome.data)
    ensures outcome.HttpError? && !Truthy(Prop(outcome.data, "message")) && !Truthy(outcome.data) ==>
      r == if outcome.message != "" then outcome.message else LoginFailedText
    ensures outcome.NoResponse? ==> r == if outcome.message != "" then outcome.message else LoginFailedText
  {
    var msg := ServerMessage(outcome);
    if msg.Str? then msg.s else h.stringify(msg)
  }

  /** How `onLogin` settles: the response body, or an error carrying a message. */
  datatype Settled = Resolved(value: Value) | Rejected(message: string)

  class Session {
    /** `localStorage` */
    var storage: map<string, string>
    /** `axios.defaults.headers.common` of the app's instance */
    var defaults: map<string, string>
    /** the `user` state; `null` when signed out */
    var user: Value

    constructor(storage0: map<string, string>, defaults0: map<string, string>)
      ensures storage == storage0 && defaults == defaults0 && user == Null
    {
      storage := storage0;
      defaults := defaults0;
      user := Null;
    }

    /** `onLogin(email, password)`, with the response given as `outcome`. */
    method OnLogin(h: Host, email: Value, password: Value, outcome: Outcome) returns (request: Request, result: Settled)
      modifies this
      ensures request == LoginRequest(email, password)
      ensures LoginToken(outcome).Some? ==>
        && storage == old(storage)[TokenKey := StringOf(h, LoginToken(outcome).value)]
        && defaults == old(defaults)["Authorization" := Bearer(h, LoginToken(outcome).value)]
        && user == SignedInUser(outcome.data, email)
        && result == Resolved(outcome.data)
      ensures LoginToken(outcome).None? ==>
        && storage == old(storage) && defaults == old(defaults) && user == old(user)
        && result == Rejected(LoginErrorText(h, outcome))
    {
      request := LoginRequest(email, password);
      if outcome.Success? {
        var token := PickToken(outcome.data);
        if !Truthy(token) {
          result := Rejected(LoginErrorText(h, outcome));
          return;
        }
        storage := storage[TokenKey := StringOf(h, token)];
        defaults := defaults["Authorization" := Bearer(h, token)];
        user := SignedInUser(outcome.data, email);
        result := Resolved(outcome.data);
      } else {
        result := Rejected(LoginErrorText(h, outcome));
      }
    }

    /** `onLogout()` */
    method OnLogout()
      modifies this
      ensures storage == old(storage) - {TokenKey}
      ensures defaults == old(defaults) - {"Authorization"}
      ensures user == Null
    {
      storage := storage - {TokenKey};
      defaults := defaults - {"Authorization"};
      user := Null;
    }
  }
}
