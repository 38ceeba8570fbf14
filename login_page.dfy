/** The log-in page: both fields required, the POST, and what the page does with
    the token or the error that comes back. */
module LoginPage {
  import opened Js
  import opened Http
  import CreateFlow

  const RequiredText := "Email and password are required"

  /** The alert of the `catch`, None when the `catch` itself throws: with a response,
      its `data.message` or "Login failed" (a `null` body makes that read throw);
      without one, the error's own message.  A success whose body is `null` fails
      the destructuring with a TypeError, which has no response. */
  function FailureAlert(h: Host, outcome: Outcome): (r: Option<string>)
    requires !outcome.Success? || Nullish(outcome.data)
    ensures outcome.Success? ==> r == Some(h.typeErrorMessage)
    ensures outcome.NoResponse? ==> r == Some(outcome.message)
    ensures outcome.HttpError? && Nullish(outcome.data) ==> r == None
    ensures outcome.HttpError? && !Nullish(outcome.data) && Truthy(Prop(outcome.data, "message")) ==>
      r == Some(StringOf(h, Prop(outcome.data, "message")))
    ensures outcome.HttpError? && !Nullish(outcome.data) && !Truthy(Prop(outcome.data, "message")) ==>
      r == Some(LoginFailedText)
  {
    match outcome
    case Success(_) => Some(h.typeErrorMessage)
    case HttpError(_, data, _) =>
      if Nullish(data) then None
      else var msg := Prop(data, "message");
        Some(if Truthy(msg) then StringOf(h, msg) else LoginFailedText)
    case NoResponse(message) => Some(message)
  }

  class Page {
    var form: map<string, string>
    var submitting: bool

    constructor()
      ensures form == map["email" := "", "password" := ""] && !submitting
    {
      form := map["email" := "", "password" := ""];
      submitting := false;
    }

    /** `handleChange`: one input's value replaces its field. */
    method HandleChange(name: string, value: string)
      modifies this
      ensures form == old(form)[name := value] && submitting == old(submitting)
    {
      form := form[name := value];
    }

    /** `handleSubmit`, with `outcome` how `POST /login` settles.  `loginWith` records
        the call of the context's `login` callback and the token passed to it. */
    method HandleSubmit(h: Host, outcome: Outcome)
      returns (request: Option<Request>, loginWith: Option<Value>, notice: Option<Notice>, nav: Option<Nav>)
      modifies this
      ensures form == old(form)
      ensures CreateFlow.Field(form, "email") == "" || CreateFlow.Field(form, "password") == "" ==>
        && request == None && loginWith == None && notice == Some(Alert(RequiredText)) && nav == None
        && submitting == old(submitting)
      ensures CreateFlow.Field(form, "email") != "" && CreateFlow.Field(form, "password") != "" ==>
        && request == Some(Request(AppClient, Post, "/login", map[], Body(form)))
        && !submitting
      ensures request.Some? && outcome.Success? && !Nullish(outcome.data) && Truthy(Prop(outcome.data, "token")) ==>
        loginWith == Some(Prop(outcome.data, "token")) && nav == Some(Nav("/", NoState)) && notice == None
      ensures request.Some? && outcome.Success? && !Nullish(outcome.data) && !Truthy(Prop(outcome.data, "token")) ==>
        loginWith == None && nav == None && notice == None
      ensures request.Some? && (!outcome.Success? || Nullish(outcome.data)) ==>
        && loginWith == None && nav == None
        && notice == (var text := FailureAlert(h, outcome); if text.Some? then Some(Alert(text.value)) else None)
    {
      if CreateFlow.Field(form, "email") == "" || CreateFlow.Field(form, "password") == "" {
        request, loginWith, notice, nav := None, None, Some(Alert(RequiredText)), None;
        return;
      }
      submitting := true;
      request := Some(Request(AppClient, Post, "/login", map[], Body(form)));
      loginWith, notice, nav := None, None, None;
      if outcome.Success? && !Nullish(outcome.data) {
        var token := Prop(outcome.data, "token");
        if Truthy(token) {
          loginWith, nav := Some(token), Some(Nav("/", NoState));
        }
      } else {
        var text := FailureAlert(h, outcome);
        if text.Some? {
          notice := Some(Alert(text.value));
        }
      }
      submitting := false;
    }
  }
}
