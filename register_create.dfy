/** The new-doctor form: names and email required, a joined `name` added to the
    payload, and an authenticated POST to `/doctors`. */
module RegisterCreate {
  import opened Js
  import opened Http
  import opened CreateFlow

  const Spec := CreateSpec("/doctors", "Doctor", ["name", "title", "first_name"])

  /** `!form.first_name.trim() || !form.last_name.trim() || !form.email.trim()`, all
      reporting the same text. */
  const Checks: seq<(string, string)> := [
    ("first_name", NamesAndEmailText),
    ("last_name", NamesAndEmailText),
    ("email", NamesAndEmailText)]

  const InitialForm: map<string, string> := map[
    "first_name" := "", "last_name" := "", "email" := "", "phone" := "", "specialisation" := ""]

  /** The form is rejected, always with the same text, exactly when a name or the
      email is blank. */
  lemma ChecksReject(form: map<string, string>)
    ensures FirstMissing(form, Checks).Some? <==>
      !Filled(form, "first_name") || !Filled(form, "last_name") || !Filled(form, "email")
    ensures FirstMissing(form, Checks).Some? ==> FirstMissing(form, Checks).value == NamesAndEmailText
  {
    FirstMissingOfThree(form, "first_name", "last_name", "email", NamesAndEmailText);
  }

  /** The phone and the speciality are never checked. */
  lemma UncheckedFields(form: map<string, string>, v: string)
    ensures FirstMissing(form["phone" := v], Checks) == FirstMissing(form, Checks)
    ensures FirstMissing(form["specialisation" := v], Checks) == FirstMissing(form, Checks)
  {
    FirstMissingIgnores(form, Checks, "phone", v);
    FirstMissingIgnores(form, Checks, "specialisation", v);
  }

  class Page {
    var form: map<string, string>
    var submitting: bool

    /** The fields `handleSubmit` reads without `?.` are always present. */
    ghost predicate Valid()
      reads this
    {
      "first_name" in form && "last_name" in form && "email" in form
    }

    constructor()
      ensures form == InitialForm && !submitting && Valid()
    {
      form := InitialForm;
      submitting := false;
    }

    /** `handleChange`: one input's value replaces its field. */
    method HandleChange(name: string, value: string)
      requires Valid()
      modifies this
      ensures Valid()
      ensures form == old(form)[name := value] && submitting == old(submitting)
    {
      form := form[name := value];
    }

    /** `createDoctor()`: the token guard, then the POST of the form with its joined
        `name`, with `submitting` raised until it settles. */
    method CreateDoctor(h: Host, token: Value, outcome: Outcome)
      returns (request: Option<Request>, notice: Option<Notice>, nav: Option<Nav>)
      modifies this
      ensures form == old(form)
      ensures !Truthy(token) ==>
        request == None && notice == Some(Alert(NotAuthenticatedText)) && nav == None && submitting == old(submitting)
      ensures Truthy(token) ==>
        && request == Some(Request(AppClient, Post, "/doctors", AuthJsonHeaders(h, token),
             Body(WithName(old(form), "first_name", "last_name"))))
        && Reaction(notice, nav) == AfterCreate(h, Spec, outcome)
        && !submitting
    {
      if !Truthy(token) {
        request, notice, nav := None, Some(Alert(NotAuthenticatedText)), None;
        return;
      }
      var payload := WithName(form, "first_name", "last_name");
      request := Some(Request(AppClient, Post, "/doctors", AuthJsonHeaders(h, token), Body(payload)));
      submitting := true;
      var reaction := AfterCreate(h, Spec, outcome);
      notice, nav := reaction.notice, reaction.nav;
      submitting := false;
    }

    /** `handleSubmit`: the checks, then `createDoctor`. */
    method HandleSubmit(h: Host, token: Value, outcome: Outcome)
      returns (request: Option<Request>, notice: Option<Notice>, nav: Option<Nav>)
      requires Valid()
      modifies this
      ensures form == old(form)
      ensures FirstMissing(form, Checks).Some? ==>
        request == None && notice == Some(Alert(NamesAndEmailText)) && nav == None && submitting == old(submitting)
      ensures FirstMissing(form, Checks).None? && !Truthy(token) ==>
        request == None && notice == Some(Alert(NotAuthenticatedText)) && nav == None && submitting == old(submitting)
      ensures FirstMissing(form, Checks).None? && Truthy(token) ==>
        && request == Some(Request(AppClient, Post, "/doctors", AuthJsonHeaders(h, token),
             Body(WithName(form, "first_name", "last_name"))))
        && Reaction(notice, nav) == AfterCreate(h, Spec, outcome)
        && !submitting
    {
      if FirstMissing(form, Checks).Some? {
        ChecksReject(form);
        request, notice, nav := None, Some(Alert(NamesAndEmailText)), None;
        return;
      }
      request, notice, nav := CreateDoctor(h, token, outcome);
    }
  }
}
