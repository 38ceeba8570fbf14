/** The new-diagnosis form: patient id and condition required, a joined `name`
    added to the payload, and an authenticated POST, sent to `/appointments`. */
module DiagnosesCreate {
  import opened Js
  import opened Http
  import opened CreateFlow

  const Spec := CreateSpec("/appointments", "appointment", ["name", "title", "patient_id"])

  /** `!form.patient_id.trim() || !form.condition.trim()`, reporting the names-and-email
      text of the other forms. */
  const Checks: seq<(string, string)> := [
    ("patient_id", NamesAndEmailText),
    ("condition", NamesAndEmailText)]

  const InitialForm: map<string, string> := map[
    "patient_id" := "", "diagnosis_date" := "", "condition" := "", "diagnosed_with" := "",
    "created_at" := "", "updated_at" := ""]

  /** The form is rejected, always with the same text, exactly when the patient id or
      the condition is blank. */
  lemma ChecksReject(form: map<string, string>)
    ensures FirstMissing(form, Checks).Some? <==> !Filled(form, "patient_id") || !Filled(form, "condition")
    ensures FirstMissing(form, Checks).Some? ==> FirstMissing(form, Checks).value == NamesAndEmailText
  {
    FirstMissingOfTwo(form, "patient_id", "condition", NamesAndEmailText);
  }

  /** The diagnosis date and the diagnosis are never checked. */
  lemma UncheckedFields(form: map<string, string>, v: string)
    ensures FirstMissing(form["diagnosis_date" := v], Checks) == FirstMissing(form, Checks)
    ensures FirstMissing(form["diagnosed_with" := v], Checks) == FirstMissing(form, Checks)
  {
    FirstMissingIgnores(form, Checks, "diagnosis_date", v);
    FirstMissingIgnores(form, Checks, "diagnosed_with", v);
  }

  class Page {
    var form: map<string, string>
    var submitting: bool

    /** The fields `handleSubmit` reads without `?.` are always present. */
    ghost predicate Valid()
      reads this
    {
      "patient_id" in form && "condition" in form
    }

    constructor()
      ensures form == InitialForm && !submitting && Valid()
    {
      form := InitialForm;
      submitting := false;
    }

    /** `handleChange`: one input's value replaces its field. */
    method HandleChange(name: string, value: string)
      requires Valid()
      modifies this
      ensures Valid()
      ensures form == old(form)[name := value] && submitting == old(submitting)
    {
      form := form[name := value];
    }

    /** `createappointment()`: the token guard, then the POST of the form with its joined
        `name`, with `submitting` raised until it settles. */
    method CreateAppointment(h: Host, token: Value, outcome: Outcome)
      returns (request: Option<Request>, notice: Option<Notice>, nav: Option<Nav>)
      modifies this
      ensures form == old(form)
      ensures !Truthy(token) ==>
        request == None && notice == Some(Alert(NotAuthenticatedText)) && nav == None && submitting == old(submitting)
      ensures Truthy(token) ==>
        && request == Some(Request(AppClient, Post, "/appointments", AuthJsonHeaders(h, token),
             Body(WithName(old(form), "patient_id", "condition"))))
        && Reaction(notice, nav) == AfterCreate(h, Spec, outcome)
        && !submitting
    {
      if !Truthy(token) {
        request, notice, nav := None, Some(Alert(NotAuthenticatedText)), None;
        return;
      }
      var payload := WithName(form, "patient_id", "condition");
      request := Some(Request(AppClient, Post, "/appointments", AuthJsonHeaders(h, token), Body(payload)));
      submitting := true;
      var reaction := AfterCreate(h, Spec, outcome);
      notice, nav := reaction.notice, reaction.nav;
      submitting := false;
    }

    /** `handleSubmit`: the checks, then `createappointment`. */
    method HandleSubmit(h: Host, token: Value, outcome: Outcome)
      returns (request: Option<Request>, notice: Option<Notice>, nav: Option<Nav>)
      requires Valid()
      modifies this
      ensures form == old(form)
      ensures FirstMissing(form, Checks).Some? ==>
        request == None && notice == Some(Alert(NamesAndEmailText)) && nav == None && submitting == old(submitting)
      ensures FirstMissing(form, Checks).None? && !Truthy(token) ==>
        request == None && notice == Some(Alert(NotAuthenticatedText)) && nav == None && submitting == old(submitting)
      ensures FirstMissing(form, Checks).None? && Truthy(token) ==>
        && request == Some(Request(AppClient, Post, "/appointments", AuthJsonHeaders(h, token),
             Body(WithName(form, "patient_id", "condition"))))
        && Reaction(notice, nav) == AfterCreate(h, Spec, outcome)
        && !submitting
    {
      if FirstMissing(form, Checks).Some? {
        ChecksReject(form);
        request, notice, nav := None, Some(Alert(NamesAndEmailText)), None;
        return;
      }
      request, notice, nav := CreateAppointment(h, token, outcome);
    }
  }
}
