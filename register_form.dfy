/** The user sign-up form: names and email required, a joined `name` added to the
    payload, and a POST through bare axios that never carries a token. */
module RegisterForm {
  import opened Js
  import opened Http
  import opened CreateFlow

  const Spec := CreateSpec("/users", "user", ["name", "title", "first_name"])

  /** `!form.first_name.trim() || !form.last_name.trim() || !form.email.trim()`, all
      reporting the same text. */
  const Checks: seq<(string, string)> := [
    ("first_name", NamesAndEmailText),
    ("last_name", NamesAndEmailText),
    ("email", NamesAndEmailText)]

  const InitialForm: map<string, string> := map[
    "first_name" := "", "last_name" := "", "email" := "", "password" := "",
    "created_at" := "", "updated_at" := ""]

  /** The form is rejected, always with the same text, exactly when a name or the
      email is blank. */
  lemma ChecksReject(form: map<string, string>)
    ensures FirstMissing(form, Checks).Some? <==>
      !Filled(form, "first_name") || !Filled(form, "last_name") || !Filled(form, "email")
    ensures FirstMissing(form, Checks).Some? ==> FirstMissing(form, Checks).value == NamesAndEmailText
  {
    FirstMissingOfThree(form, "first_name", "last_name", "email", NamesAndEmailText);
  }

  /** The password is never checked. */
  lemma PasswordUnchecked(form: map<string, string>, v: string)
    ensures FirstMissing(form["password" := v], Checks) == FirstMissing(form, Checks)
  {
    FirstMissingIgnores(form, Checks, "password", v);
  }

  /** The sign-up request: bare axios and a JSON content type, so whatever default
      headers the app's instance carries, no `Authorization` header goes out. */
  function SignUpRequest(form: map<string, string>): (r: Request)
    ensures r.client == PlainAxios && r.verb == Post && r.path == "/registerForm"
    ensures r.headers == map["Content-Type" := JsonContentType]
    ensures r.body == Body(WithName(form, "first_name", "last_name"))
    ensures forall appDefaults: map<string, string> :: "Authorization" !in SentHeaders(r, appDefaults)
  {
    Request(PlainAxios, Post, "/registerForm", map["Content-Type" := JsonContentType],
      Body(WithName(form, "first_name", "last_name")))
  }

  class Page {
    var form: map<string, string>
    var submitting: bool

    /** The fields `handleSubmit` reads without `?.` are always present. */
    ghost predicate Valid()
      reads this
    {
      "first_name" in form && "last_name" in form && "email" in form
    }

    constructor()
      ensures form == InitialForm && !submitting && Valid()
    {
      form := InitialForm;
      submitting := false;
    }

    /** `handleChange`: one input's value replaces its field. */
    method HandleChange(name: string, value: string)
      requires Valid()
      modifies this
      ensures Valid()
      ensures form == old(form)[name := value] && submitting == old(submitting)
    {
      form := form[name := value];
    }

    /** `createuser()`: the POST of the form with its joined `name`, with
        `submitting` raised until it settles. */
    method CreateUser(h: Host, outcome: Outcome) returns (request: Request, notice: Option<Notice>, nav: Option<Nav>)
      modifies this
      ensures form == old(form)
      ensures request == SignUpRequest(old(form))
      ensures Reaction(notice, nav) == AfterCreate(h, Spec, outcome)
      ensures !submitting
    {
      request := SignUpRequest(form);
      submitting := true;
      var reaction := AfterCreate(h, Spec, outcome);
      notice, nav := reaction.notice, reaction.nav;
      submitting := false;
    }

    /** `handleSubmit`: the checks, then `createuser`; no token is consulted. */
    method HandleSubmit(h: Host, outcome: Outcome)
      returns (request: Option<Request>, notice: Option<Notice>, nav: Option<Nav>)
      requires Valid()
      modifies this
      ensures form == old(form)
      ensures FirstMissing(form, Checks).Some? ==>
        request == None && notice == Some(Alert(NamesAndEmailText)) && nav == None && submitting == old(submitting)
      ensures FirstMissing(form, Checks).None? ==>
        && request == Some(SignUpRequest(form))
        && Reaction(notice, nav) == AfterCreate(h, Spec, outcome)
        && !submitting
    {
      if FirstMissing(form, Checks).Some? {
        ChecksReject(form);
        request, notice, nav := None, Some(Alert(NamesAndEmailText)), None;
        return;
      }
      var sent;
      sent, notice, nav := CreateUser(h, outcome);
      request := Some(sent);
    }
  }
}
